/** Month-keyed dispatch series: `prepareSkuMonthlyDispatch` and
    `prepareSkuComparison` (dashboard-logic.js) and
    `prepareAllSkusMonthlyDispatch` (dashboard-ui.js). Each fills an object
    keyed by month, then reads it back in ascending key order. Month names
    come from `monthLabel`, the locale formatting the dashboard delegates to
    `toLocaleString`. */
module Monthly {
  import opened Seqs
  import opened Records
  import opened Sorting
  import opened Grouping

  function OrderMonth(o: Order): string
  {
    MonthKey(o.date)
  }

  /** `if (!m) return;` */
  predicate HasMonthKey(o: Order)
  {
    OrderMonth(o) != ""
  }

  predicate Always(o: Order)
  {
    true
  }

  /** `o.jobName === sku`: a missing job name matches no SKU. */
  function JobIs(sku: string): Order -> bool
  {
    (o: Order) => o.jobName == Some(sku)
  }

  predicate StrictlyAscending(ks: seq<string>)
  {
    forall i, j :: 0 <= i < j < |ks| ==> LexLe(ks[i], ks[j]) && ks[i] != ks[j]
  }

  /** Reading a summing accumulator back in any order of its keys loses and
      duplicates nothing: the values add up to the total over the kept
      records. */
  lemma ReadBackTotal(s: seq<Order>, keep: Order -> bool, key: Order -> string, f: Order -> int, months: seq<string>, values: seq<int>)
    requires multiset(months) == multiset(FirstSeen(s, keep, key))
    requires |values| == |months|
    requires forall i :: 0 <= i < |months| ==> values[i] == GroupTotal(s, keep, key, f)(months[i])
    ensures Total(values) == SumBy(Filter(s, keep), f)
  {
    SumByIsTotalOfMap(months, GroupTotal(s, keep, key, f), values);
    SumByPermutation(months, FirstSeen(s, keep, key), GroupTotal(s, keep, key, f));
    Conservation(s, keep, key, f);
  }

  // ----- prepareSkuMonthlyDispatch

  datatype MonthlySeries = MonthlySeries(labels: seq<string>, values: seq<int>)

  /** `prepareSkuMonthlyDispatch(orderBook, sku)`. `months` are the sorted
      keys the labels and values are read in. */
  method PrepareSkuMonthlyDispatch(orders: seq<Order>, sku: string, monthLabel: string -> string)
    returns (r: MonthlySeries, months: seq<string>)
    ensures var sel := Filter(orders, JobIs(sku));
      && StrictlyAscending(months)
      && (forall k :: k in months <==> k in FirstSeen(sel, HasMonthKey, OrderMonth))
      && "" !in months
      && |r.labels| == |r.values| == |months|
      && (forall i :: 0 <= i < |months| ==> r.labels[i] == monthLabel(months[i]))
      && (forall i :: 0 <= i < |months| ==> r.values[i] == GroupTotal(sel, HasMonthKey, OrderMonth, DispQty)(months[i]))
      && Total(r.values) == SumBy(Filter(sel, HasMonthKey), DispQty)
  {
    var sel := Filter(orders, JobIs(sku));
    var keys, m := AccumulateBy(sel, HasMonthKey, OrderMonth, Zero, Adder(DispQty));
    months := SortStrings(keys);
    forall k | k in keys ensures m[k] == GroupTotal(sel, HasMonthKey, OrderMonth, DispQty)(k) {
      SummingEntry(sel, HasMonthKey, OrderMonth, DispQty, k);
    }
    var labels := seq(|months|, i requires 0 <= i < |months| => monthLabel(months[i]));
    var values := seq(|months|, i requires 0 <= i < |months| => m[months[i]]);
    ReadBackTotal(sel, HasMonthKey, OrderMonth, DispQty, months, values);
    r := MonthlySeries(labels, values);
  }

  // ----- prepareSkuComparison

  /** `getMonthly(sku)`: like the series above but with no `if (!m) return`,
      so undated records of the SKU accumulate under the key "". */
  method GetMonthly(orders: seq<Order>, sku: string) returns (keys: seq<string>, m: map<string, int>)
    ensures keys == FirstSeen(Filter(orders, JobIs(sku)), Always, OrderMonth)
    ensures forall k :: k in m <==> k in keys
    ensures forall k :: k in m ==> m[k] == GroupTotal(Filter(orders, JobIs(sku)), Always, OrderMonth, DispQty)(k)
  {
    var sel := Filter(orders, JobIs(sku));
    keys, m := AccumulateBy(sel, Always, OrderMonth, Zero, Adder(DispQty));
    forall k | k in keys ensures m[k] == GroupTotal(sel, Always, OrderMonth, DispQty)(k) {
      SummingEntry(sel, Always, OrderMonth, DispQty, k);
    }
  }

  function SameKey(k: string): string
  {
    k
  }

  predicate AnyKey(k: string)
  {
    true
  }

  /** `Array.from(new Set(ks))`: first occurrences, in order. */
  function Dedupe(ks: seq<string>): (r: seq<string>)
    ensures NoDups(r)
    ensures forall k :: k in r <==> k in ks
  {
    var r := FirstSeen(ks, AnyKey, SameKey);
    assert forall k :: k in ks ==> exists i :: 0 <= i < |ks| && ks[i] == k;
    r
  }

  /** `map[m] || 0` on a summing accumulator. */
  function ValueOr0(m: map<string, int>, k: string): int
  {
    if k in m then m[k] else 0
  }

  datatype Comparison = Comparison(labels: seq<string>, aValues: seq<int>, bValues: seq<int>)

  /** The monthly dispatch total of one SKU, "" standing for undated records. */
  function SkuMonthTotal(orders: seq<Order>, sku: string, k: string): int
  {
    GroupTotal(Filter(orders, JobIs(sku)), Always, OrderMonth, DispQty)(k)
  }

  /** `months.map(m => map[m] || 0)` over the result of `getMonthly`. */
  method ReadMonths(orders: seq<Order>, sku: string, keys: seq<string>, m: map<string, int>, months: seq<string>)
    returns (values: seq<int>)
    requires keys == FirstSeen(Filter(orders, JobIs(sku)), Always, OrderMonth)
    requires forall k :: k in m <==> k in keys
    requires forall k :: k in m ==> m[k] == SkuMonthTotal(orders, sku, k)
    ensures |values| == |months|
    ensures forall i :: 0 <= i < |months| ==> values[i] == SkuMonthTotal(orders, sku, months[i])
  {
    values := seq(|months|, i requires 0 <= i < |months| => ValueOr0(m, months[i]));
    forall i | 0 <= i < |months| ensures values[i] == SkuMonthTotal(orders, sku, months[i]) {
      if months[i] !in keys {
        MissingMonthIsZero(orders, sku, months[i], keys);
      }
    }
  }

  /** `prepareSkuComparison(orderBook, skuA, skuB)`. `months` are the sorted
      keys the three arrays are read in. */
  method PrepareSkuComparison(orders: seq<Order>, skuA: string, skuB: string, monthLabel: string -> string)
    returns (r: Comparison, months: seq<string>)
    ensures StrictlyAscending(months)
    ensures forall k :: k in months <==>
      k in FirstSeen(Filter(orders, JobIs(skuA)), Always, OrderMonth) || k in FirstSeen(Filter(orders, JobIs(skuB)), Always, OrderMonth)
    ensures |r.labels| == |r.aValues| == |r.bValues| == |months|
    ensures forall i :: 0 <= i < |months| ==> r.labels[i] == monthLabel(months[i])
    ensures forall i :: 0 <= i < |months| ==> r.aValues[i] == SkuMonthTotal(orders, skuA, months[i])
    ensures forall i :: 0 <= i < |months| ==> r.bValues[i] == SkuMonthTotal(orders, skuB, months[i])
  {
    var aKeys, aMap := GetMonthly(orders, skuA);
    var bKeys, bMap := GetMonthly(orders, skuB);
    months := SortStrings(Dedupe(aKeys + bKeys));
    var labels := seq(|months|, i requires 0 <= i < |months| => monthLabel(months[i]));
    var aValues := ReadMonths(orders, skuA, aKeys, aMap, months);
    var bValues := ReadMonths(orders, skuB, bKeys, bMap, months);
    r := Comparison(labels, aValues, bValues);
  }

  /** A month a SKU has no record in totals 0 for that SKU. */
  lemma MissingMonthIsZero(orders: seq<Order>, sku: string, k: string, keys: seq<string>)
    requires keys == FirstSeen(Filter(orders, JobIs(sku)), Always, OrderMonth)
    requires k !in keys
    ensures SkuMonthTotal(orders, sku, k) == 0
  {
    GroupOfUnseenKey(Filter(orders, JobIs(sku)), Always, OrderMonth, k);
  }

  /** An undated record of a SKU puts the month "" into that SKU's comparison
      keys, while the single-SKU series never has it. */
  lemma UndatedRecordGivesEmptyMonth(orders: seq<Order>, sku: string, i: nat)
    requires i < |orders| && orders[i].jobName == Some(sku) && !Truthy(orders[i].date)
    ensures "" in FirstSeen(Filter(orders, JobIs(sku)), Always, OrderMonth)
    ensures "" !in FirstSeen(Filter(orders, JobIs(sku)), HasMonthKey, OrderMonth)
  {
    var sel := Filter(orders, JobIs(sku));
    FilterMembers(orders, JobIs(sku));
    assert orders[i] in sel;
    var j :| 0 <= j < |sel| && sel[j] == orders[i];
    assert Always(sel[j]) && OrderMonth(sel[j]) == "";
  }

  // ----- prepareAllSkusMonthlyDispatch

  /** `if (!o.date || !o.dispQty) return;` */
  predicate DatedDispatch(o: Order)
  {
    Truthy(o.date) && NonZero(o.dispQty)
  }

  /** `Number(o.poCount) || 1`: a missing or zero PO count counts as one. */
  function PoWeight(o: Order): int
  {
    if NonZero(o.poCount) then o.poCount.value else 1
  }

  /** `{ dispatchQty, poCount }`. */
  datatype MonthAcc = MonthAcc(dispatchQty: int, poCount: int)

  function MonthStart(o: Order): MonthAcc
  {
    MonthAcc(0, 0)
  }

  function MonthStep(a: MonthAcc, o: Order): MonthAcc
  {
    MonthAcc(a.dispatchQty + DispQty(o), a.poCount + PoWeight(o))
  }

  lemma {:induction false} MonthFold(a: MonthAcc, g: seq<Order>)
    ensures Fold(a, g, MonthStep).dispatchQty == a.dispatchQty + SumBy(g, DispQty)
    ensures Fold(a, g, MonthStep).poCount == a.poCount + SumBy(g, PoWeight)
  {
    if g != [] {
      var init, x := g[..|g| - 1], g[|g| - 1];
      MonthFold(a, init);
      assert g == init + [x];
      FoldSnoc(a, init, x, MonthStep);
      SumByAppend(init, [x], DispQty);
      SumByAppend(init, [x], PoWeight);
    }
  }

  /** A month's dispatch total and PO count. */
  function MonthTotals(orders: seq<Order>, k: string): MonthAcc
  {
    MonthAcc(GroupTotal(orders, DatedDispatch, OrderMonth, DispQty)(k), GroupTotal(orders, DatedDispatch, OrderMonth, PoWeight)(k))
  }

  lemma MonthEntry(orders: seq<Order>, k: string)
    requires k in FirstSeen(orders, DatedDispatch, OrderMonth)
    ensures Entry(orders, DatedDispatch, OrderMonth, MonthStart, MonthStep, k) == MonthTotals(orders, k)
  {
    var g := Group(orders, DatedDispatch, OrderMonth, k);
    EntryOfGroup(orders, DatedDispatch, OrderMonth, MonthStart, MonthStep, k, g);
    MonthFold(MonthStart(g[0]), g);
  }

  datatype AllSkusSeries = AllSkusSeries(labels: seq<string>, values: seq<int>, poCounts: seq<int>, months: seq<string>)

  /** `prepareAllSkusMonthlyDispatch(orderBookData)`. */
  method PrepareAllSkusMonthlyDispatch(orders: seq<Order>, monthLabel: string -> string) returns (r: AllSkusSeries)
    ensures StrictlyAscending(r.months)
    ensures forall k :: k in r.months <==> exists i :: 0 <= i < |orders| && DatedDispatch(orders[i]) && OrderMonth(orders[i]) == k
    ensures |r.labels| == |r.values| == |r.poCounts| == |r.months|
    ensures forall i :: 0 <= i < |r.months| ==> r.labels[i] == monthLabel(r.months[i])
    ensures forall i :: 0 <= i < |r.months| ==> r.values[i] == GroupTotal(orders, DatedDispatch, OrderMonth, DispQty)(r.months[i])
    ensures forall i :: 0 <= i < |r.months| ==> r.poCounts[i] == GroupTotal(orders, DatedDispatch, OrderMonth, PoWeight)(r.months[i])
    ensures Total(r.values) == SumBy(Filter(orders, DatedDispatch), DispQty)
    ensures Total(r.poCounts) == SumBy(Filter(orders, DatedDispatch), PoWeight)
  {
    var keys, m := AccumulateBy(orders, DatedDispatch, OrderMonth, MonthStart, MonthStep);
    var sortedMonths := SortStrings(keys);
    forall k | k in keys ensures m[k] == MonthTotals(orders, k) {
      MonthEntry(orders, k);
    }
    var labels := seq(|sortedMonths|, i requires 0 <= i < |sortedMonths| => monthLabel(sortedMonths[i]));
    var values, poCounts := ReadMonthTotals(orders, m, sortedMonths);
    r := AllSkusSeries(labels, values, poCounts, sortedMonths);
  }

  /** `sortedMonths.map(m => monthMap[m].dispatchQty)` and the same for
      `poCount`, read from a complete month object. */
  method ReadMonthTotals(orders: seq<Order>, m: map<string, MonthAcc>, months: seq<string>)
    returns (values: seq<int>, poCounts: seq<int>)
    requires multiset(months) == multiset(FirstSeen(orders, DatedDispatch, OrderMonth))
    requires forall k :: k in FirstSeen(orders, DatedDispatch, OrderMonth) ==> k in m && m[k] == MonthTotals(orders, k)
    ensures |values| == |poCounts| == |months|
    ensures forall i :: 0 <= i < |months| ==> values[i] == GroupTotal(orders, DatedDispatch, OrderMonth, DispQty)(months[i])
    ensures forall i :: 0 <= i < |months| ==> poCounts[i] == GroupTotal(orders, DatedDispatch, OrderMonth, PoWeight)(months[i])
    ensures Total(values) == SumBy(Filter(orders, DatedDispatch), DispQty)
    ensures Total(poCounts) == SumBy(Filter(orders, DatedDispatch), PoWeight)
  {
    assert forall i :: 0 <= i < |months| ==> months[i] in multiset(months);
    values := seq(|months|, i requires 0 <= i < |months| => m[months[i]].dispatchQty);
    poCounts := seq(|months|, i requires 0 <= i < |months| => m[months[i]].poCount);
    ReadBackTotal(orders, DatedDispatch, OrderMonth, DispQty, months, values);
    ReadBackTotal(orders, DatedDispatch, OrderMonth, PoWeight, months, poCounts);
  }

  /** Records without a date or with no dispatched quantity are left out of
      every month, and each other record is charted in its own month. */
  lemma AllSkusSkipsUndispatched(orders: seq<Order>, o: Order, k: string)
    ensures !DatedDispatch(o) ==> GroupTotal(orders + [o], DatedDispatch, OrderMonth, DispQty)(k) == GroupTotal(orders, DatedDispatch, OrderMonth, DispQty)(k)
    ensures DatedDispatch(o) ==>
      (GroupTotal(orders + [o], DatedDispatch, OrderMonth, DispQty)(OrderMonth(o)) ==
       GroupTotal(orders, DatedDispatch, OrderMonth, DispQty)(OrderMonth(o)) + DispQty(o))
  {
    GroupTotalSnoc(orders, o, DatedDispatch, OrderMonth, DispQty, k);
    GroupTotalSnoc(orders, o, DatedDispatch, OrderMonth, DispQty, OrderMonth(o));
  }
}
