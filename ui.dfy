/** The aggregation kernels inside the render functions of dashboard-ui.js:
    the SKU list of a month, the top SKUs by dispatch, the monthly rank lists
    and the drilldown filters behind two KPI cards. */
module Ui {
  import opened Seqs
  import opened Records
  import opened Sorting
  import opened Grouping
  import opened Metrics
  import opened Monthly
  import opened Sku

  // ----- renderSkuListByMonth

  /** `o.date && (!month || o.date.startsWith(month))`. */
  function ListedIn(month: string): Order -> bool
  {
    (o: Order) => Truthy(o.date) && (month == "" || month <= o.date.value)
  }

  /** `o.jobName || "Unknown SKU"`. */
  function ListKey(o: Order): string
  {
    if Truthy(o.jobName) then o.jobName.value else "Unknown SKU"
  }

  /** What is still to dispatch on a record: `orderQty - dispQty` when its
      status is "incomplete", otherwise nothing. */
  function PendingQty(o: Order): int
  {
    if IsIncomplete(o) then OpenQty(o) else 0
  }

  function OpenQty(o: Order): int
  {
    OrderQty(o) - DispQty(o)
  }

  /** `{ sku, poCount, orderQty, dispatchQty, pendingQty, value, rows }`. */
  datatype SkuListRow = SkuListRow(sku: string, poCount: int, orderQty: int, dispatchQty: int, pendingQty: int, value: int, rows: seq<Order>)

  function ListStart(o: Order): SkuListRow
  {
    SkuListRow(ListKey(o), 0, 0, 0, 0, 0, [])
  }

  function ListStep(a: SkuListRow, o: Order): SkuListRow
  {
    a.(poCount := a.poCount + 1, orderQty := a.orderQty + OrderQty(o), dispatchQty := a.dispatchQty + DispQty(o),
       pendingQty := a.pendingQty + PendingQty(o), value := a.value + OrderValue(o), rows := a.rows + [o])
  }

  lemma {:induction false} ListFold(a: SkuListRow, g: seq<Order>)
    ensures Fold(a, g, ListStep).sku == a.sku
    ensures Fold(a, g, ListStep).poCount == a.poCount + |g|
    ensures Fold(a, g, ListStep).orderQty == a.orderQty + SumBy(g, OrderQty)
    ensures Fold(a, g, ListStep).dispatchQty == a.dispatchQty + SumBy(g, DispQty)
    ensures Fold(a, g, ListStep).pendingQty == a.pendingQty + SumBy(g, PendingQty)
    ensures Fold(a, g, ListStep).value == a.value + SumBy(g, OrderValue)
    ensures Fold(a, g, ListStep).rows == a.rows + g
  {
    if g != [] {
      var init, x := g[..|g| - 1], g[|g| - 1];
      ListFold(a, init);
      assert g == init + [x];
      FoldSnoc(a, init, x, ListStep);
      SumByAppend(init, [x], OrderQty);
      SumByAppend(init, [x], DispQty);
      SumByAppend(init, [x], PendingQty);
      SumByAppend(init, [x], OrderValue);
    }
  }

  function ListKeys(orders: seq<Order>, month: string): seq<string>
  {
    FirstSeen(orders, ListedIn(month), ListKey)
  }

  function ListGroup(orders: seq<Order>, month: string, k: string): seq<Order>
  {
    Group(orders, ListedIn(month), ListKey, k)
  }

  /** The list row of one SKU: one PO per record, the quantity and value
      sums, and the records themselves. */
  function ListRowOf(orders: seq<Order>, month: string, k: string): SkuListRow
  {
    var g := ListGroup(orders, month, k);
    SkuListRow(k, |g|, SumBy(g, OrderQty), SumBy(g, DispQty), SumBy(g, PendingQty), SumBy(g, OrderValue), g)
  }

  function ListRowFor(orders: seq<Order>, month: string): string -> SkuListRow
  {
    k => ListRowOf(orders, month, k)
  }

  function ListName(r: SkuListRow): string { r.sku }
  function ListDispatch(r: SkuListRow): int { r.dispatchQty }
  function ListPoCount(r: SkuListRow): int { r.poCount }

  /** The list in display order: `Object.values(skuMap)` ranked by dispatch,
      ties in first-seen order. */
  function SkuList(orders: seq<Order>, month: string): seq<SkuListRow>
  {
    SortDesc(RowsOf(ListKeys(orders, month), ListRowFor(orders, month)), ListDispatch)
  }

  lemma ListEntry(orders: seq<Order>, month: string, k: string)
    requires k in ListKeys(orders, month)
    ensures Entry(orders, ListedIn(month), ListKey, ListStart, ListStep, k) == ListRowOf(orders, month, k)
  {
    var g := ListGroup(orders, month, k);
    EntryOfGroup(orders, ListedIn(month), ListKey, ListStart, ListStep, k, g);
    GroupMember(orders, ListedIn(month), ListKey, k, g[0]);
    ListFold(ListStart(g[0]), g);
  }

  /** The aggregation and sort of `renderSkuListByMonth(month)`. */
  method RenderSkuListByMonth(orders: seq<Order>, month: string) returns (sorted: seq<SkuListRow>)
    ensures sorted == SkuList(orders, month)
  {
    var keys, m := AccumulateBy(orders, ListedIn(month), ListKey, ListStart, ListStep);
    var arr := seq(|keys|, i requires 0 <= i < |keys| => m[keys[i]]);
    forall i | 0 <= i < |keys| ensures arr[i] == ListRowOf(orders, month, keys[i]) {
      ListEntry(orders, month, keys[i]);
    }
    assert arr == RowsOf(ListKeys(orders, month), ListRowFor(orders, month));
    sorted := SortDesc(arr, ListDispatch);
  }

  /** One row per listed SKU, each that SKU's own row, ranked non-increasing
      by dispatch; `poCount` counts records, so the counts add up to the
      number of listed records. */
  lemma SkuListFacts(orders: seq<Order>, month: string)
    ensures var rows := SkuList(orders, month);
      && |rows| == |ListKeys(orders, month)|
      && (forall i :: 0 <= i < |rows| ==> rows[i].sku in ListKeys(orders, month) && rows[i] == ListRowOf(orders, month, rows[i].sku))
      && (forall i, j :: 0 <= i < j < |rows| ==> rows[i].sku != rows[j].sku)
      && (forall i, j :: 0 <= i < j < |rows| ==> rows[i].dispatchQty >= rows[j].dispatchQty)
      && SumBy(rows, ListPoCount) == |Filter(orders, ListedIn(month))|
  {
    var keys := ListKeys(orders, month);
    var counts := GroupTotal(orders, ListedIn(month), ListKey, One);
    forall k | k in keys ensures ListPoCount(ListRowFor(orders, month)(k)) == counts(k) {
      SumOfOnesIsLength(ListGroup(orders, month, k));
    }
    RankedRows(keys, ListRowFor(orders, month), ListName, ListDispatch, ListPoCount, counts);
    Conservation(orders, ListedIn(month), ListKey, One);
    SumOfOnesIsLength(Filter(orders, ListedIn(month)));
  }

  /** A row's records are exactly the listed records of its SKU. */
  lemma ListRowRecords(orders: seq<Order>, month: string, k: string, x: Order)
    ensures x in ListRowOf(orders, month, k).rows <==> x in orders && ListedIn(month)(x) && ListKey(x) == k
  {
    FilterMembers(orders, InGroup(ListedIn(month), ListKey, k));
  }

  lemma {:induction false} PendingIsOpenQtyOfIncomplete(s: seq<Order>)
    ensures SumBy(s, PendingQty) == SumBy(Filter(s, IsIncomplete), OpenQty)
  {
    if s != [] {
      PendingIsOpenQtyOfIncomplete(s[1..]);
    }
  }

  /** `pendingQty` is the open quantity of the SKU's "incomplete" records
      only: complete, cancelled and status-less records add nothing. */
  lemma PendingCountsOnlyIncomplete(orders: seq<Order>, month: string, k: string)
    ensures ListRowOf(orders, month, k).pendingQty == SumBy(Filter(ListGroup(orders, month, k), IsIncomplete), OpenQty)
  {
    PendingIsOpenQtyOfIncomplete(ListGroup(orders, month, k));
  }

  /** The `!month ||` guard is redundant: the empty month is a prefix of
      every date, so the list selects what `prepareMonthlySkuSummary` does. */
  lemma ListedInIsDatedIn(orders: seq<Order>, month: string)
    ensures Filter(orders, ListedIn(month)) == Filter(orders, DatedIn(month))
  {
    FilterCongruent(orders, ListedIn(month), DatedIn(month));
  }

  // ----- renderTopSkusByDispatch

  const DefaultLimit: int := 20

  /** `a || b || c || ""` over three optional strings. */
  function FirstTruthy(a: Option<string>, b: Option<string>, c: Option<string>): (r: string)
    ensures Truthy(a) ==> r == a.value
    ensures !Truthy(a) && Truthy(b) ==> r == b.value
    ensures !Truthy(a) && !Truthy(b) ==> r == Str(c)
  {
    if Truthy(a) then a.value else if Truthy(b) then b.value else c.GetOr("")
  }

  /** `(row.jobName || row.SKU || row.product || "").trim()`. */
  function TopKey(o: Order): string
  {
    Trim(FirstTruthy(o.jobName, o.sku, o.product))
  }

  /** Not `!sku || qty <= 0`. */
  predicate Dispatched(o: Order)
  {
    TopKey(o) != "" && DispQty(o) > 0
  }

  datatype SkuQty = SkuQty(sku: string, qty: int)

  function QtyName(e: SkuQty): string { e.sku }
  function QtyOf(e: SkuQty): int { e.qty }

  function DispatchKeys(orders: seq<Order>): seq<string>
  {
    FirstSeen(orders, Dispatched, TopKey)
  }

  function QtyRowOf(orders: seq<Order>, k: string): SkuQty
  {
    SkuQty(k, GroupTotal(orders, Dispatched, TopKey, DispQty)(k))
  }

  function QtyRowFor(orders: seq<Order>): string -> SkuQty
  {
    k => QtyRowOf(orders, k)
  }

  /** `Object.entries(skuMap)` ranked non-increasing by quantity. */
  function DispatchRanking(orders: seq<Order>): seq<SkuQty>
  {
    SortDesc(RowsOf(DispatchKeys(orders), QtyRowFor(orders)), QtyOf)
  }

  /** The aggregation, sort and cut of `renderTopSkusByDispatch(orders, limit)`. */
  method RenderTopSkusByDispatch(orders: seq<Order>, limit: int) returns (r: seq<SkuQty>)
    ensures r == DispatchRanking(orders)[..SliceEnd(|DispatchRanking(orders)|, limit)]
  {
    var keys, m := AccumulateBy(orders, Dispatched, TopKey, Zero, Adder(DispQty));
    var arr := seq(|keys|, i requires 0 <= i < |keys| => SkuQty(keys[i], m[keys[i]]));
    forall i | 0 <= i < |keys| ensures arr[i] == QtyRowOf(orders, keys[i]) {
      SummingEntry(orders, Dispatched, TopKey, DispQty, keys[i]);
    }
    assert arr == RowsOf(DispatchKeys(orders), QtyRowFor(orders));
    var sorted := SortDesc(arr, QtyOf);
    r := sorted[..SliceEnd(|sorted|, limit)];
  }

  /** Every ranked SKU dispatched something: its quantity is positive. */
  lemma RankedQtyPositive(orders: seq<Order>, k: string)
    requires k in DispatchKeys(orders)
    ensures QtyRowOf(orders, k).qty > 0
  {
    var g := Group(orders, Dispatched, TopKey, k);
    GroupOfSeenKey(orders, Dispatched, TopKey, k);
    forall i | 0 <= i < |g| ensures DispQty(g[i]) > 0 {
      GroupMember(orders, Dispatched, TopKey, k, g[i]);
    }
    SumByPositive(g, DispQty);
  }

  /** Every ranked SKU name is non-empty and trimmed. */
  lemma RankedNameTrimmed(orders: seq<Order>, k: string)
    requires k in DispatchKeys(orders)
    ensures k != [] && !IsWhite(k[0]) && !IsWhite(k[|k| - 1])
  {
    var i :| 0 <= i < |orders| && Dispatched(orders[i]) && TopKey(orders[i]) == k;
  }

  /** The ranking has one entry per distinct SKU, each that SKU's total,
      ranked non-increasing. */
  lemma DispatchRankingFacts(orders: seq<Order>)
    ensures var ranked := DispatchRanking(orders);
      && |ranked| == |DispatchKeys(orders)|
      && (forall i :: 0 <= i < |ranked| ==> ranked[i].sku in DispatchKeys(orders) && ranked[i] == QtyRowOf(orders, ranked[i].sku))
      && (forall i, j :: 0 <= i < j < |ranked| ==> ranked[i].sku != ranked[j].sku)
      && (forall i, j :: 0 <= i < j < |ranked| ==> ranked[i].qty >= ranked[j].qty)
  {
    var rowOf, g := QtyRowFor(orders), GroupTotal(orders, Dispatched, TopKey, DispQty);
    assert forall k :: QtyName(rowOf(k)) == k;
    assert forall k :: QtyOf(rowOf(k)) == g(k);
    RankedRows(DispatchKeys(orders), rowOf, QtyName, QtyOf, QtyOf, g);
  }

  /** Nothing is lost or counted twice: the entries add up to the dispatch
      of the records kept. */
  lemma DispatchRankingTotal(orders: seq<Order>)
    ensures SumBy(DispatchRanking(orders), QtyOf) == SumBy(Filter(orders, Dispatched), DispQty)
  {
    RankedRows(DispatchKeys(orders), QtyRowFor(orders), QtyName, QtyOf, QtyOf, GroupTotal(orders, Dispatched, TopKey, DispQty));
    Conservation(orders, Dispatched, TopKey, DispQty);
  }

  /** A non-empty name with no white space at either end. */
  predicate TrimmedName(sku: string)
  {
    sku != [] && !IsWhite(sku[0]) && !IsWhite(sku[|sku| - 1])
  }

  /** The shown list has at most `limit` entries (min(limit, number of SKUs)
      for a non-negative limit), each with a positive quantity and a
      trimmed, non-empty name, ranked non-increasing. */
  lemma TopDispatchFacts(orders: seq<Order>, limit: int)
    ensures var ranked := DispatchRanking(orders);
      var shown := ranked[..SliceEnd(|ranked|, limit)];
      && (limit >= 0 ==> |shown| == if limit < |DispatchKeys(orders)| then limit else |DispatchKeys(orders)|)
      && (forall i :: 0 <= i < |shown| ==> shown[i].qty > 0)
      && (forall i :: 0 <= i < |shown| ==> TrimmedName(shown[i].sku))
      && (forall i, j :: 0 <= i < j < |shown| ==> shown[i].qty >= shown[j].qty)
  {
    DispatchRankingFacts(orders);
    var ranked := DispatchRanking(orders);
    forall i | 0 <= i < |ranked| ensures ranked[i].qty > 0 && TrimmedName(ranked[i].sku) {
      RankedQtyPositive(orders, ranked[i].sku);
      RankedNameTrimmed(orders, ranked[i].sku);
    }
  }

  // ----- month rank lists

  /** `{ month, dispatchQty, poCount }`. */
  datatype MonthRank = MonthRank(month: string, dispatchQty: int, poCount: int)

  function RankDispatch(r: MonthRank): int { r.dispatchQty }

  predicate AlignedAllSkus(series: AllSkusSeries)
  {
    |series.values| == |series.labels| && |series.poCounts| == |series.labels|
  }

  /** `series.labels.map((m, i) => ({ month: m, dispatchQty: values[i], poCount: poCounts[i] }))`. */
  function AllSkusRows(series: AllSkusSeries): (rows: seq<MonthRank>)
    requires AlignedAllSkus(series)
    ensures |rows| == |series.labels|
    ensures forall i :: 0 <= i < |rows| ==> rows[i] == MonthRank(series.labels[i], series.values[i], series.poCounts[i])
  {
    seq(|series.labels|, i requires 0 <= i < |series.labels| => MonthRank(series.labels[i], series.values[i], series.poCounts[i]))
  }

  /** The rank list of `renderAllSkusMonthlyRankList`: the chart's months
      re-ordered non-increasing by dispatch, none added or dropped. */
  function AllSkusRankRows(series: AllSkusSeries): (rows: seq<MonthRank>)
    requires AlignedAllSkus(series)
    ensures |rows| == |series.labels|
    ensures multiset(rows) == multiset(AllSkusRows(series))
    ensures forall i, j :: 0 <= i < j < |rows| ==> rows[i].dispatchQty >= rows[j].dispatchQty
  {
    SortDesc(AllSkusRows(series), RankDispatch)
  }

  /** The rank list shows the same total as the chart. */
  lemma AllSkusRankTotal(series: AllSkusSeries)
    requires AlignedAllSkus(series)
    ensures SumBy(AllSkusRankRows(series), RankDispatch) == Total(series.values)
  {
    SumByPermutation(AllSkusRankRows(series), AllSkusRows(series), RankDispatch);
    SumByIsTotalOfMap(AllSkusRows(series), RankDispatch, series.values);
  }

  /** `{ month, qty }`. */
  datatype MonthQty = MonthQty(month: string, qty: int)

  function RankQty(r: MonthQty): int { r.qty }

  function SkuRows(series: MonthlySeries): (rows: seq<MonthQty>)
    requires |series.values| == |series.labels|
    ensures |rows| == |series.labels|
    ensures forall i :: 0 <= i < |rows| ==> rows[i] == MonthQty(series.labels[i], series.values[i])
  {
    seq(|series.labels|, i requires 0 <= i < |series.labels| => MonthQty(series.labels[i], series.values[i]))
  }

  /** The rank list of `renderSkuMonthlyRankList`. */
  function SkuRankRows(series: MonthlySeries): (rows: seq<MonthQty>)
    requires |series.values| == |series.labels|
    ensures |rows| == |series.labels|
    ensures multiset(rows) == multiset(SkuRows(series))
    ensures forall i, j :: 0 <= i < j < |rows| ==> rows[i].qty >= rows[j].qty
  {
    SortDesc(SkuRows(series), RankQty)
  }

  lemma SkuRankTotal(series: MonthlySeries)
    requires |series.values| == |series.labels|
    ensures SumBy(SkuRankRows(series), RankQty) == Total(series.values)
  {
    SumByPermutation(SkuRankRows(series), SkuRows(series), RankQty);
    SumByIsTotalOfMap(SkuRows(series), RankQty, series.values);
  }

  // ----- drilldown filters

  /** The rows of the "Outstanding Invoices" drilldown: sales due on or
      before 2025-12-20. */
  function OutstandingDrilldown(sales: seq<Sale>): (rows: seq<Sale>)
    ensures forall x :: x in rows <==> x in sales && OnOrBefore(x.dueDate, DefaultToday)
  {
    FilterMembers(sales, DueBy(DefaultToday));
    Filter(sales, DueBy(DefaultToday))
  }

  /** The drilldown lists exactly the lines the outstanding KPI adds up on
      the same reference day. */
  lemma OutstandingDrilldownMatchesKpi(sales: seq<Sale>)
    ensures SumBy(OutstandingDrilldown(sales), SaleValue) == OutstandingRaw(sales, DefaultToday)
  {
  }

  /** The rows of the "Pending Dispatch Orders" drilldown: status exactly
      "incomplete", whatever the value. */
  function PendingDrilldown(orders: seq<Order>): (rows: seq<Order>)
    ensures forall o :: o in rows <==> o in orders && IsIncomplete(o)
  {
    FilterMembers(orders, IsIncomplete);
    Filter(orders, IsIncomplete)
  }

  /** The drilldown's values add up to the pending KPI, and it lists every
      record the KPI counts, possibly more. */
  lemma PendingDrilldownMatchesKpi(orders: seq<Order>)
    ensures SumBy(PendingDrilldown(orders), OrderValue) == PendingRaw(orders)
    ensures Filter(PendingDrilldown(orders), IsPendingValue) == Filter(orders, IsPendingValue)
    ensures |Filter(orders, IsPendingValue)| <= |PendingDrilldown(orders)|
  {
    SumByDropsZeros(orders, IsIncomplete, IsPendingValue, OrderValue);
    FilterFilter(orders, IsIncomplete, IsPendingValue, IsPendingValue);
  }

  /** An "incomplete" order with value 0 is listed in the drilldown while
      the KPI counts nothing for it. */
  lemma PendingDrilldownListsZeroValueRows()
    ensures PendingDrilldown([OrderWith("incomplete", 0)]) == [OrderWith("incomplete", 0)]
    ensures PendingRaw([OrderWith("incomplete", 0)]) == 0
  {
    var o := OrderWith("incomplete", 0);
    assert IsIncomplete(o) && !IsPendingValue(o);
    assert Filter([o], IsPendingValue) == [];
  }
}
