/** The two completion breakdowns of dashboard-logic.js: the pie that counts
    only the exact "complete" and "incomplete" statuses, and the status split
    that puts every record that is not "complete" on the incomplete side. */
module Completion {
  import opened Seqs
  import opened Records

  datatype PieData = PieData(labels: seq<string>, values: seq<real>, counts: seq<nat>)

  function CompleteRaw(orders: seq<Order>): int
  {
    SumBy(Filter(orders, IsComplete), OrderValue)
  }

  function IncompleteRaw(orders: seq<Order>): int
  {
    SumBy(Filter(orders, IsIncomplete), OrderValue)
  }

  /** One more record moves a slice's count and value only if it belongs. */
  lemma TallyStep(s: seq<Order>, o: Order, p: Order -> bool)
    ensures |Filter(s + [o], p)| == |Filter(s, p)| + (if p(o) then 1 else 0)
    ensures SumBy(Filter(s + [o], p), OrderValue) == SumBy(Filter(s, p), OrderValue) + (if p(o) then OrderValue(o) else 0)
  {
    FilterSumSnoc(s, o, p, OrderValue);
  }

  /** The `forEach` callback of the pie: bumps the counters of the slice
      the record's status names, if any. */
  method CountStatus(o: Order, cv: int, iv: int, cc: nat, ic: nat) returns (cv': int, iv': int, cc': nat, ic': nat)
    ensures cv' == cv + (if IsComplete(o) then OrderValue(o) else 0)
    ensures cc' == cc + (if IsComplete(o) then 1 else 0)
    ensures iv' == iv + (if IsIncomplete(o) then OrderValue(o) else 0)
    ensures ic' == ic + (if IsIncomplete(o) then 1 else 0)
  {
    cv', iv', cc', ic' := cv, iv, cc, ic;
    var status := Lower(Str(o.status));
    var val := Num(o.value);
    if status == "complete" {
      cv' := cv' + val;
      cc' := cc' + 1;
    }
    if status == "incomplete" {
      iv' := iv' + val;
      ic' := ic' + 1;
    }
  }

  /** `prepareCompletionPieData(orderBook)`: four counters updated record by
      record. */
  method PrepareCompletionPieData(orders: seq<Order>) returns (r: PieData)
    ensures r.labels == ["Complete", "Incomplete"]
    ensures r.values == [InLakh(CompleteRaw(orders)), InLakh(IncompleteRaw(orders))]
    ensures r.counts == [|Filter(orders, IsComplete)|, |Filter(orders, IsIncomplete)|]
  {
    var completeValue, incompleteValue := 0, 0;
    var completeCount, incompleteCount := 0, 0;
    for i := 0 to |orders|
      invariant completeValue == SumBy(Filter(orders[..i], IsComplete), OrderValue)
      invariant incompleteValue == SumBy(Filter(orders[..i], IsIncomplete), OrderValue)
      invariant completeCount == |Filter(orders[..i], IsComplete)|
      invariant incompleteCount == |Filter(orders[..i], IsIncomplete)|
    {
      var o := orders[i];
      completeValue, incompleteValue, completeCount, incompleteCount :=
        CountStatus(o, completeValue, incompleteValue, completeCount, incompleteCount);
      assert orders[..i + 1] == orders[..i] + [o];
      TallyStep(orders[..i], o, IsComplete);
      TallyStep(orders[..i], o, IsIncomplete);
    }
    assert orders[..|orders|] == orders;
    r := PieData(["Complete", "Incomplete"],
      [InLakh(completeValue), InLakh(incompleteValue)],
      [completeCount, incompleteCount]);
  }

  /** No record is counted in both slices, so the slices count at most every
      record; records with any other status are in neither. */
  lemma PieCountsAtMostRecords(orders: seq<Order>)
    ensures |Filter(orders, IsComplete)| + |Filter(orders, IsIncomplete)| <= |orders|
  {
    forall o | o in orders ensures !(IsComplete(o) && IsIncomplete(o)) {
      StatusesExclusive(o);
    }
    FilterDisjoint(orders, IsComplete, IsIncomplete);
  }

  /** With non-negative values the two slices together are at most the value
      of the whole book. */
  lemma PieValuesAtMostBook(orders: seq<Order>)
    requires forall o :: o in orders ==> OrderValue(o) >= 0
    ensures 0 <= CompleteRaw(orders) + IncompleteRaw(orders) <= SumBy(orders, OrderValue)
  {
    forall o | o in orders ensures !(IsComplete(o) && IsIncomplete(o)) {
      StatusesExclusive(o);
    }
    SumByDisjoint(orders, IsComplete, IsIncomplete, OrderValue);
    SumByFilterAtMost(orders, IsComplete, OrderValue);
    SumByFilterAtMost(orders, IsIncomplete, OrderValue);
  }

  // ----- status split

  datatype StatusSplit = StatusSplit(
    labels: seq<string>,
    valueLakh: seq<real>,
    poCount: seq<nat>,
    completed: seq<Order>,
    incomplete: seq<Order>)

  /** `prepareOrderCompletionStatus(orderBook)`: an exact partition into
      "complete" and everything else. */
  function PrepareOrderCompletionStatus(orders: seq<Order>): (r: StatusSplit)
    ensures r.labels == ["Completed", "Incomplete"]
    ensures r.completed == Filter(orders, IsComplete) && r.incomplete == Filter(orders, NotComplete)
    ensures r.poCount == [|r.completed|, |r.incomplete|]
    ensures r.poCount[0] + r.poCount[1] == |orders|
    ensures multiset(r.completed) + multiset(r.incomplete) == multiset(orders)
    ensures r.valueLakh == [InLakh(SumBy(r.completed, OrderValue)), InLakh(SumBy(r.incomplete, OrderValue))]
    ensures r.valueLakh[0] + r.valueLakh[1] == InLakh(SumBy(orders, OrderValue))
  {
    var completed := Filter(orders, IsComplete);
    var incomplete := Filter(orders, NotComplete);
    FilterPartition(orders, IsComplete, NotComplete, OrderValue);
    StatusSplit(["Completed", "Incomplete"],
      [InLakh(SumBy(completed, OrderValue)), InLakh(SumBy(incomplete, OrderValue))],
      [|completed|, |incomplete|],
      completed, incomplete)
  }

  /** The pie's "Incomplete" slice is part of the split's incomplete side:
      the split also counts "cancelled", empty and missing statuses there. */
  lemma PieIncompleteWithinSplit(orders: seq<Order>)
    ensures |Filter(orders, IsIncomplete)| <= |PrepareOrderCompletionStatus(orders).incomplete|
    ensures Filter(Filter(orders, NotComplete), IsIncomplete) == Filter(orders, IsIncomplete)
  {
    forall o | o in orders ensures IsIncomplete(o) == (NotComplete(o) && IsIncomplete(o)) {
      StatusesExclusive(o);
    }
    FilterFilter(orders, NotComplete, IsIncomplete, IsIncomplete);
  }

  /** The two breakdowns agree on the "complete" side. */
  lemma PieAndSplitAgreeOnComplete(orders: seq<Order>)
    ensures PrepareOrderCompletionStatus(orders).valueLakh[0] == InLakh(CompleteRaw(orders))
    ensures PrepareOrderCompletionStatus(orders).poCount[0] == |Filter(orders, IsComplete)|
  {
  }
}
