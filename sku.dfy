/** Per-SKU rankings keyed by `jobName`: `prepareSkuSummary`,
    `prepareTopSKUs` (dashboard-logic.js) and `prepareMonthlySkuSummary`
    (dashboard-ui.js). Records without a `jobName` are skipped; each of the
    others is folded into its SKU's entry of an object, and the entries are
    then ranked by dispatched quantity. */
module Sku {
  import opened Seqs
  import opened Records
  import opened Sorting
  import opened Grouping

  /** `if (!o.jobName) return;` */
  predicate HasJob(o: Order)
  {
    Truthy(o.jobName)
  }

  function JobKey(o: Order): string
  {
    Str(o.jobName)
  }

  /** The distinct non-empty job names, in the order first seen. */
  function JobKeys(orders: seq<Order>): seq<string>
  {
    FirstSeen(orders, HasJob, JobKey)
  }

  /** The records of one SKU, in input order. */
  function JobGroup(orders: seq<Order>, k: string): seq<Order>
  {
    Group(orders, HasJob, JobKey, k)
  }

  lemma JobKeysAreJobNames(orders: seq<Order>, k: string)
    ensures k in JobKeys(orders) <==> exists i :: 0 <= i < |orders| && Truthy(orders[i].jobName) && orders[i].jobName.value == k
  {
  }

  // ----- prepareSkuSummary

  /** `{ sku, totalDispatch, poSet }`. */
  datatype SkuAcc = SkuAcc(sku: string, totalDispatch: int, poSet: set<Option<string>>)

  function SkuStart(o: Order): SkuAcc
  {
    SkuAcc(JobKey(o), 0, {})
  }

  /** `totalDispatch += Number(o.dispQty) || 0; poSet.add(o.poNumber)`. */
  function SkuStep(a: SkuAcc, o: Order): SkuAcc
  {
    a.(totalDispatch := a.totalDispatch + DispQty(o), poSet := a.poSet + {o.poNumber})
  }

  lemma {:induction false} SkuFold(a: SkuAcc, g: seq<Order>)
    ensures Fold(a, g, SkuStep).sku == a.sku
    ensures Fold(a, g, SkuStep).totalDispatch == a.totalDispatch + SumBy(g, DispQty)
    ensures Fold(a, g, SkuStep).poSet == a.poSet + Distinct(g, PoNumber)
  {
    if g != [] {
      var init, x := g[..|g| - 1], g[|g| - 1];
      SkuFold(a, init);
      assert g == init + [x];
      var b := Fold(a, init, SkuStep);
      FoldSnoc(a, init, x, SkuStep);
      assert Fold(a, g, SkuStep) == SkuStep(b, x);
      SumByAppend(init, [x], DispQty);
      DistinctAppend(init, [x], PoNumber);
    }
  }

  /** `{ sku, dispatchQty, poCount }`. */
  datatype SkuRow = SkuRow(sku: string, dispatchQty: int, poCount: nat)

  function SkuName(r: SkuRow): string { r.sku }
  function DispatchQtyOf(r: SkuRow): int { r.dispatchQty }

  /** The summary row of one SKU: its total dispatch and its number of
      distinct PO numbers (a missing PO number counts as one value). */
  function SkuRowOf(orders: seq<Order>, k: string): SkuRow
  {
    var g := JobGroup(orders, k);
    SkuRow(k, SumBy(g, DispQty), |Distinct(g, PoNumber)|)
  }

  function SkuRowFor(orders: seq<Order>): string -> SkuRow
  {
    k => SkuRowOf(orders, k)
  }

  /** The summary in its final order: rows ranked by dispatch, ties in the
      order their SKUs were first seen. */
  function SkuSummary(orders: seq<Order>): seq<SkuRow>
  {
    SortDesc(RowsOf(JobKeys(orders), SkuRowFor(orders)), DispatchQtyOf)
  }

  lemma SkuEntry(orders: seq<Order>, k: string)
    requires k in JobKeys(orders)
    ensures Entry(orders, HasJob, JobKey, SkuStart, SkuStep, k) == SkuAcc(k, SumBy(JobGroup(orders, k), DispQty), Distinct(JobGroup(orders, k), PoNumber))
  {
    var g := JobGroup(orders, k);
    EntryOfGroup(orders, HasJob, JobKey, SkuStart, SkuStep, k, g);
    GroupMember(orders, HasJob, JobKey, k, g[0]);
    SkuFold(SkuStart(g[0]), g);
  }

  /** `prepareSkuSummary(orderBook)`. */
  method PrepareSkuSummary(orders: seq<Order>) returns (rows: seq<SkuRow>)
    ensures rows == SkuSummary(orders)
  {
    var keys, m := AccumulateBy(orders, HasJob, JobKey, SkuStart, SkuStep);
    var arr := seq(|keys|, i requires 0 <= i < |keys| => SkuRow(m[keys[i]].sku, m[keys[i]].totalDispatch, |m[keys[i]].poSet|));
    forall i | 0 <= i < |keys| ensures arr[i] == SkuRowOf(orders, keys[i]) {
      SkuEntry(orders, keys[i]);
    }
    assert arr == RowsOf(JobKeys(orders), SkuRowFor(orders));
    rows := SortDesc(arr, DispatchQtyOf);
  }

  /** The summary has one row per distinct non-empty job name, each carrying
      that SKU's totals, ranked non-increasing by dispatch; nothing is lost or
      counted twice, so the rows add up to the dispatch of every record with
      a job name. */
  lemma SkuSummaryFacts(orders: seq<Order>)
    ensures var rows := SkuSummary(orders);
      && |rows| == |JobKeys(orders)|
      && (forall i :: 0 <= i < |rows| ==> rows[i].sku in JobKeys(orders) && rows[i] == SkuRowOf(orders, rows[i].sku))
      && (forall k :: k in JobKeys(orders) ==> exists i :: 0 <= i < |rows| && rows[i].sku == k)
      && (forall i, j :: 0 <= i < j < |rows| ==> rows[i].sku != rows[j].sku)
      && (forall i, j :: 0 <= i < j < |rows| ==> rows[i].dispatchQty >= rows[j].dispatchQty)
      && SumBy(rows, DispatchQtyOf) == SumBy(Filter(orders, HasJob), DispQty)
  {
    RankedRows(JobKeys(orders), SkuRowFor(orders), SkuName, DispatchQtyOf, DispatchQtyOf, GroupTotal(orders, HasJob, JobKey, DispQty));
    Conservation(orders, HasJob, JobKey, DispQty);
  }

  // ----- prepareTopSKUs

  const DefaultTopN: int := 8

  /** `{ jobName, brand, totalOrder, totalDispatch, poSet }`, created with the
      brand of the SKU's first record. */
  datatype JobAcc = JobAcc(jobName: string, brand: Option<string>, totalOrder: int, totalDispatch: int, poSet: set<Option<string>>)

  function JobStart(o: Order): JobAcc
  {
    JobAcc(JobKey(o), o.brand, 0, 0, {})
  }

  function JobStep(a: JobAcc, o: Order): JobAcc
  {
    a.(totalOrder := a.totalOrder + OrderQty(o), totalDispatch := a.totalDispatch + DispQty(o), poSet := a.poSet + {o.poNumber})
  }

  lemma {:induction false} JobFold(a: JobAcc, g: seq<Order>)
    ensures Fold(a, g, JobStep).jobName == a.jobName && Fold(a, g, JobStep).brand == a.brand
    ensures Fold(a, g, JobStep).totalOrder == a.totalOrder + SumBy(g, OrderQty)
    ensures Fold(a, g, JobStep).totalDispatch == a.totalDispatch + SumBy(g, DispQty)
    ensures Fold(a, g, JobStep).poSet == a.poSet + Distinct(g, PoNumber)
  {
    if g != [] {
      var init, x := g[..|g| - 1], g[|g| - 1];
      JobFold(a, init);
      assert g == init + [x];
      var b := Fold(a, init, JobStep);
      FoldSnoc(a, init, x, JobStep);
      assert Fold(a, g, JobStep) == JobStep(b, x);
      SumByAppend(init, [x], OrderQty);
      SumByAppend(init, [x], DispQty);
      DistinctAppend(init, [x], PoNumber);
    }
  }

  datatype TopSku = TopSku(jobName: string, brand: Option<string>, totalOrder: int, totalDispatch: int, poCount: nat)

  function TopName(r: TopSku): string { r.jobName }
  function TotalDispatchOf(r: TopSku): int { r.totalDispatch }

  /** The brand of a SKU's first record. */
  function FirstBrand(g: seq<Order>): Option<string>
  {
    if g == [] then None else g[0].brand
  }

  function TopRowOf(orders: seq<Order>, k: string): TopSku
  {
    var g := JobGroup(orders, k);
    TopSku(k, FirstBrand(g), SumBy(g, OrderQty), SumBy(g, DispQty), |Distinct(g, PoNumber)|)
  }

  function TopRowFor(orders: seq<Order>): string -> TopSku
  {
    k => TopRowOf(orders, k)
  }

  /** Every SKU's row, ranked by total dispatch. */
  function RankedJobs(orders: seq<Order>): seq<TopSku>
  {
    SortDesc(RowsOf(JobKeys(orders), TopRowFor(orders)), TotalDispatchOf)
  }

  datatype TopSkus = TopSkus(top: seq<TopSku>, totalDispatchQty: int)

  lemma JobEntry(orders: seq<Order>, k: string)
    requires k in JobKeys(orders)
    ensures var g := JobGroup(orders, k);
      Entry(orders, HasJob, JobKey, JobStart, JobStep, k) ==
      JobAcc(k, FirstBrand(g), SumBy(g, OrderQty), SumBy(g, DispQty), Distinct(g, PoNumber))
  {
    var g := JobGroup(orders, k);
    EntryOfGroup(orders, HasJob, JobKey, JobStart, JobStep, k, g);
    GroupMember(orders, HasJob, JobKey, k, g[0]);
    JobFold(JobStart(g[0]), g);
  }

  /** `prepareTopSKUs(orderBook, topN)`: the first `topN` ranked SKUs
      (`slice(0, topN)`, so a negative `topN` counts back from the end) and
      the dispatch total over every SKU. */
  method PrepareTopSKUs(orders: seq<Order>, topN: int) returns (r: TopSkus)
    ensures r.top == RankedJobs(orders)[..SliceEnd(|RankedJobs(orders)|, topN)]
    ensures r.totalDispatchQty == SumBy(Filter(orders, HasJob), DispQty)
  {
    var keys, m := AccumulateBy(orders, HasJob, JobKey, JobStart, JobStep);
    var arr := seq(|keys|, i requires 0 <= i < |keys| =>
      var x := m[keys[i]]; TopSku(x.jobName, x.brand, x.totalOrder, x.totalDispatch, |x.poSet|));
    forall i | 0 <= i < |keys| ensures arr[i] == TopRowOf(orders, keys[i]) {
      JobEntry(orders, keys[i]);
    }
    assert arr == RowsOf(JobKeys(orders), TopRowFor(orders));
    arr := SortDesc(arr, TotalDispatchOf);
    var top := arr[..SliceEnd(|arr|, topN)];
    var totalDispatchQty := SumBy(arr, TotalDispatchOf);
    TopSkusTotal(orders);
    r := TopSkus(top, totalDispatchQty);
  }

  /** Nothing is lost or counted twice: the ranked SKUs add up to the
      dispatch of every record with a job name. */
  lemma TopSkusTotal(orders: seq<Order>)
    ensures SumBy(RankedJobs(orders), TotalDispatchOf) == SumBy(Filter(orders, HasJob), DispQty)
  {
    RankedRows(JobKeys(orders), TopRowFor(orders), TopName, TotalDispatchOf, TotalDispatchOf, GroupTotal(orders, HasJob, JobKey, DispQty));
    Conservation(orders, HasJob, JobKey, DispQty);
  }

  /** The ranking has one row per distinct non-empty job name, each that
      SKU's own row, ranked non-increasing by total dispatch. */
  lemma RankedJobsFacts(orders: seq<Order>)
    ensures var ranked := RankedJobs(orders);
      && |ranked| == |JobKeys(orders)|
      && (forall i :: 0 <= i < |ranked| ==> ranked[i].jobName in JobKeys(orders) && ranked[i] == TopRowOf(orders, ranked[i].jobName))
      && (forall k :: k in JobKeys(orders) ==> exists i :: 0 <= i < |ranked| && ranked[i].jobName == k)
      && (forall i, j :: 0 <= i < j < |ranked| ==> ranked[i].jobName != ranked[j].jobName)
      && (forall i, j :: 0 <= i < j < |ranked| ==> ranked[i].totalDispatch >= ranked[j].totalDispatch)
  {
    RankedRows(JobKeys(orders), TopRowFor(orders), TopName, TotalDispatchOf, TotalDispatchOf, GroupTotal(orders, HasJob, JobKey, DispQty));
  }

  /** `top` has min(topN, number of SKUs) rows for a non-negative `topN`,
      ranked non-increasing, each the row of a distinct SKU. */
  lemma TopSkusFacts(orders: seq<Order>, topN: int)
    ensures var ranked := RankedJobs(orders);
      var top := ranked[..SliceEnd(|ranked|, topN)];
      && (topN >= 0 ==> |top| == if topN < |JobKeys(orders)| then topN else |JobKeys(orders)|)
      && (forall i, j :: 0 <= i < j < |top| ==> top[i].totalDispatch >= top[j].totalDispatch)
      && (forall i :: 0 <= i < |top| ==> top[i].jobName in JobKeys(orders) && top[i] == TopRowOf(orders, top[i].jobName))
      && (forall i, j :: 0 <= i < j < |top| ==> top[i].jobName != top[j].jobName)
  {
    RankedJobsFacts(orders);
  }

  /** A SKU's row carries the brand of its first record. */
  lemma TopBrandIsFirstRecords(orders: seq<Order>, k: string)
    requires k in JobKeys(orders)
    ensures JobGroup(orders, k) != [] && TopRowOf(orders, k).brand == JobGroup(orders, k)[0].brand
  {
    GroupOfSeenKey(orders, HasJob, JobKey, k);
  }

  /** A SKU left out of `top` never dispatched more than one in it. */
  lemma TopDominatesRest(orders: seq<Order>, topN: int, i: nat, j: nat)
    requires var ranked := RankedJobs(orders);
      i < SliceEnd(|ranked|, topN) <= j < |ranked|
    ensures RankedJobs(orders)[i].totalDispatch >= RankedJobs(orders)[j].totalDispatch
  {
  }

  /** With non-negative dispatch quantities every SKU's total is non-negative. */
  lemma RankedNonNegative(orders: seq<Order>)
    requires forall o :: o in orders ==> DispQty(o) >= 0
    ensures forall i :: 0 <= i < |RankedJobs(orders)| ==> RankedJobs(orders)[i].totalDispatch >= 0
  {
    RankedJobsFacts(orders);
    var ranked := RankedJobs(orders);
    forall i | 0 <= i < |ranked| ensures ranked[i].totalDispatch >= 0 {
      var g := JobGroup(orders, ranked[i].jobName);
      forall y | y in g ensures DispQty(y) >= 0 {
        GroupMember(orders, HasJob, JobKey, ranked[i].jobName, y);
      }
      SumByNonNegative(g, DispQty);
    }
  }

  /** With non-negative dispatch quantities the grand total is at least the
      total of the rows shown. */
  lemma TopWithinTotal(orders: seq<Order>, topN: int)
    requires forall o :: o in orders ==> DispQty(o) >= 0
    ensures var ranked := RankedJobs(orders);
      SumBy(ranked[..SliceEnd(|ranked|, topN)], TotalDispatchOf) <= SumBy(Filter(orders, HasJob), DispQty)
  {
    var ranked := RankedJobs(orders);
    var e := SliceEnd(|ranked|, topN);
    TopSkusTotal(orders);
    RankedNonNegative(orders);
    assert ranked == ranked[..e] + ranked[e..];
    SumByAppend(ranked[..e], ranked[e..], TotalDispatchOf);
    SumByNonNegative(ranked[e..], TotalDispatchOf);
  }

  // ----- prepareMonthlySkuSummary

  /** `o.date && o.date.startsWith(month)`. */
  function DatedIn(month: string): Order -> bool
  {
    (o: Order) => Truthy(o.date) && month <= o.date.value
  }

  /** `prepareMonthlySkuSummary(orderBook, month)`. */
  method PrepareMonthlySkuSummary(orders: seq<Order>, month: string) returns (rows: seq<SkuRow>)
    ensures rows == SkuSummary(Filter(orders, DatedIn(month)))
  {
    var filtered := Filter(orders, DatedIn(month));
    rows := PrepareSkuSummary(filtered);
  }

  /** For a "YYYY-MM" month the selection is exactly the records whose month
      key is that month; undated records never appear. */
  lemma MonthlySelectionIsMonthKey(orders: seq<Order>, month: string)
    requires |month| == 7
    ensures Filter(orders, DatedIn(month)) == Filter(orders, (o: Order) => MonthKey(o.date) == month)
  {
    forall o | o in orders ensures DatedIn(month)(o) == (MonthKey(o.date) == month) {
      MonthKeyIsSevenCharPrefix(o.date, month);
    }
    FilterCongruent(orders, DatedIn(month), (o: Order) => MonthKey(o.date) == month);
  }

  /** The monthly summary adds up to the dispatch of that month's records
      with a job name. */
  lemma MonthlySkuSummaryTotal(orders: seq<Order>, month: string)
    ensures SumBy(SkuSummary(Filter(orders, DatedIn(month))), DispatchQtyOf) ==
      SumBy(Filter(Filter(orders, DatedIn(month)), HasJob), DispQty)
  {
    SkuSummaryFacts(Filter(orders, DatedIn(month)));
  }
}
