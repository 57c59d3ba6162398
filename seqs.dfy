/** Sequence folds shared by every aggregation: filtering, summing and
    distinct-value sets. These are the `filter`, `reduce` and `new Set(map)`
    idioms the dashboard uses on its in-memory ledgers. */
module Seqs {

  /** `arr.filter(p)`: the elements satisfying `p`, in input order. */
  function Filter<T(==)>(s: seq<T>, p: T -> bool): (r: seq<T>)
    ensures |r| <= |s|
  {
    if s == [] then []
    else if p(s[0]) then [s[0]] + Filter(s[1..], p)
    else Filter(s[1..], p)
  }

  /** `arr.filter(p)` keeps exactly the elements that satisfy `p`. */
  lemma {:induction false} FilterMembers<T>(s: seq<T>, p: T -> bool)
    ensures forall x :: x in Filter(s, p) <==> x in s && p(x)
  {
    if s != [] {
      FilterMembers(s[1..], p);
      assert s == [s[0]] + s[1..];
    }
  }

  /** `arr.reduce((acc, x) => acc + f(x), 0)` over integers. */
  function SumBy<T>(s: seq<T>, f: T -> int): int
  {
    if s == [] then 0 else f(s[0]) + SumBy(s[1..], f)
  }

  /** `new Set(arr.map(f))`: the set of values `f` takes on `s`. */
  function Distinct<T, U(!new)>(s: seq<T>, f: T -> U): (d: set<U>)
    ensures |d| <= |s|
    ensures s != [] ==> |d| >= 1
  {
    if s == [] then {} else {f(s[0])} + Distinct(s[1..], f)
  }

  /** The set holds exactly the values `f` takes at some index. */
  lemma {:induction false} DistinctMembers<T, U(!new)>(s: seq<T>, f: T -> U)
    ensures forall u :: u in Distinct(s, f) <==> exists i :: 0 <= i < |s| && f(s[i]) == u
  {
    if s != [] {
      DistinctMembers(s[1..], f);
      forall u | u in Distinct(s[1..], f) ensures exists i :: 1 <= i < |s| && f(s[i]) == u {
        var j :| 0 <= j < |s[1..]| && f(s[1..][j]) == u;
        assert f(s[j + 1]) == u;
      }
      forall u | (exists i :: 1 <= i < |s| && f(s[i]) == u) ensures u in Distinct(s[1..], f) {
        var j :| 1 <= j < |s| && f(s[j]) == u;
        assert f(s[1..][j - 1]) == u;
      }
    }
  }

  /** The integers of a sequence, added up. */
  function Total(xs: seq<int>): int
  {
    if xs == [] then 0 else xs[0] + Total(xs[1..])
  }

  /** Exact real addition of a sequence (the display values are reals). */
  function RealSum(xs: seq<real>): real
  {
    if xs == [] then 0.0 else RealSum(xs[..|xs| - 1]) + xs[|xs| - 1]
  }

  predicate NoDups<T(==)>(s: seq<T>)
  {
    forall i, j :: 0 <= i < j < |s| ==> s[i] != s[j]
  }

  lemma {:induction false} FilterAppend<T>(a: seq<T>, b: seq<T>, p: T -> bool)
    ensures Filter(a + b, p) == Filter(a, p) + Filter(b, p)
  {
    if a != [] {
      assert (a + b)[1..] == a[1..] + b;
      FilterAppend(a[1..], b, p);
    } else {
      assert a + b == b;
    }
  }

  lemma {:induction false} SumByAppend<T>(a: seq<T>, b: seq<T>, f: T -> int)
    ensures SumBy(a + b, f) == SumBy(a, f) + SumBy(b, f)
  {
    if a != [] {
      assert (a + b)[1..] == a[1..] + b;
      SumByAppend(a[1..], b, f);
    } else {
      assert a + b == b;
    }
  }

  lemma {:induction false} DistinctAppend<T, U(!new)>(a: seq<T>, b: seq<T>, f: T -> U)
    ensures Distinct(a + b, f) == Distinct(a, f) + Distinct(b, f)
  {
    if a != [] {
      assert (a + b)[1..] == a[1..] + b;
      DistinctAppend(a[1..], b, f);
    } else {
      assert a + b == b;
    }
  }

  /** One more element adds its own term to a filtered sum, if it passes. */
  lemma FilterSumSnoc<T>(s: seq<T>, x: T, p: T -> bool, f: T -> int)
    ensures Filter(s + [x], p) == Filter(s, p) + (if p(x) then [x] else [])
    ensures |Filter(s + [x], p)| == |Filter(s, p)| + (if p(x) then 1 else 0)
    ensures SumBy(Filter(s + [x], p), f) == SumBy(Filter(s, p), f) + (if p(x) then f(x) else 0)
  {
    FilterAppend(s, [x], p);
    SumByAppend(Filter(s, p), if p(x) then [x] else [], f);
  }

  /** Filtering by `p` and by its complement splits the input: every
      element lands in exactly one side, so counts, contents and sums add up. */
  lemma {:induction false} FilterPartition<T>(s: seq<T>, p: T -> bool, q: T -> bool, f: T -> int)
    requires forall x :: x in s ==> q(x) == !p(x)
    ensures |Filter(s, p)| + |Filter(s, q)| == |s|
    ensures multiset(Filter(s, p)) + multiset(Filter(s, q)) == multiset(s)
    ensures SumBy(Filter(s, p), f) + SumBy(Filter(s, q), f) == SumBy(s, f)
  {
    if s != [] {
      FilterPartition(s[1..], p, q, f);
      assert s == [s[0]] + s[1..];
    }
  }

  /** Two filters whose predicates never hold together select at most
      `|s|` elements between them. */
  lemma {:induction false} FilterDisjoint<T>(s: seq<T>, p: T -> bool, q: T -> bool)
    requires forall x :: x in s ==> !(p(x) && q(x))
    ensures |Filter(s, p)| + |Filter(s, q)| <= |s|
  {
    if s != [] {
      FilterDisjoint(s[1..], p, q);
    }
  }

  /** With non-negative summands, two disjoint filters sum to at most the
      whole. */
  lemma {:induction false} SumByDisjoint<T>(s: seq<T>, p: T -> bool, q: T -> bool, f: T -> int)
    requires forall x :: x in s ==> !(p(x) && q(x))
    requires forall x :: x in s ==> f(x) >= 0
    ensures SumBy(Filter(s, p), f) + SumBy(Filter(s, q), f) <= SumBy(s, f)
  {
    if s != [] {
      SumByDisjoint(s[1..], p, q, f);
    }
  }

  lemma {:induction false} SumByNonNegative<T>(s: seq<T>, f: T -> int)
    requires forall x :: x in s ==> f(x) >= 0
    ensures SumBy(s, f) >= 0
  {
    if s != [] {
      SumByNonNegative(s[1..], f);
    }
  }

  /** With non-negative summands, a filter sums to at most the whole. */
  lemma {:induction false} SumByFilterAtMost<T>(s: seq<T>, p: T -> bool, f: T -> int)
    requires forall x :: x in s ==> f(x) >= 0
    ensures 0 <= SumBy(Filter(s, p), f) <= SumBy(s, f)
  {
    if s != [] {
      SumByFilterAtMost(s[1..], p, f);
    }
  }

  /** Narrowing a filter from `p` to `q` changes nothing in a sum when every
      element dropped contributes zero. */
  lemma {:induction false} SumByDropsZeros<T>(s: seq<T>, p: T -> bool, q: T -> bool, f: T -> int)
    requires forall x :: x in s && q(x) ==> p(x)
    requires forall x :: x in s && p(x) && !q(x) ==> f(x) == 0
    ensures SumBy(Filter(s, q), f) == SumBy(Filter(s, p), f)
  {
    if s != [] {
      SumByDropsZeros(s[1..], p, q, f);
    }
  }

  /** Filtering twice is filtering once by the conjunction. */
  lemma {:induction false} FilterFilter<T>(s: seq<T>, p: T -> bool, q: T -> bool, pq: T -> bool)
    requires forall x :: x in s ==> pq(x) == (p(x) && q(x))
    ensures Filter(Filter(s, p), q) == Filter(s, pq)
  {
    if s != [] {
      FilterFilter(s[1..], p, q, pq);
      if p(s[0]) {
        assert Filter(s, p) == [s[0]] + Filter(s[1..], p);
        assert Filter(s, p)[1..] == Filter(s[1..], p);
      }
    }
  }

  /** A filter no element passes is empty. */
  lemma {:induction false} FilterNone<T>(s: seq<T>, p: T -> bool)
    requires forall i :: 0 <= i < |s| ==> !p(s[i])
    ensures Filter(s, p) == []
  {
    if s != [] {
      FilterNone(s[1..], p);
    }
  }

  /** Filters by predicates that agree on `s` are equal. */
  lemma {:induction false} FilterCongruent<T>(s: seq<T>, p: T -> bool, q: T -> bool)
    requires forall x :: x in s ==> p(x) == q(x)
    ensures Filter(s, p) == Filter(s, q)
  {
    if s != [] {
      FilterCongruent(s[1..], p, q);
    }
  }

  /** A sum only depends on the multiset of its summands. */
  lemma {:induction false} SumByPermutation<T>(a: seq<T>, b: seq<T>, f: T -> int)
    requires multiset(a) == multiset(b)
    ensures SumBy(a, f) == SumBy(b, f)
  {
    if a != [] {
      var x := a[0];
      assert x in multiset(b);
      var j :| 0 <= j < |b| && b[j] == x;
      var rest := b[..j] + b[j + 1..];
      assert b == b[..j] + [x] + b[j + 1..];
      assert multiset(b) == multiset(rest) + multiset{x} by {
        assert b == (b[..j] + [x]) + b[j + 1..];
        assert multiset(b) == multiset(b[..j]) + multiset{x} + multiset(b[j + 1..]);
        assert multiset(rest) == multiset(b[..j]) + multiset(b[j + 1..]);
      }
      assert a == [x] + a[1..];
      assert multiset(a) == multiset{x} + multiset(a[1..]);
      assert multiset(a[1..]) == multiset(a) - multiset{x};
      assert multiset(rest) == multiset(b) - multiset{x};
      SumByPermutation(a[1..], rest, f);
      SumByAppend(b[..j] + [x], b[j + 1..], f);
      SumByAppend(b[..j], [x], f);
      SumByAppend(b[..j], b[j + 1..], f);
    }
  }

  /** Summing `f` over a sequence equals adding up the mapped values. */
  lemma {:induction false} SumByIsTotalOfMap<T>(s: seq<T>, f: T -> int, xs: seq<int>)
    requires |xs| == |s|
    requires forall i :: 0 <= i < |s| ==> xs[i] == f(s[i])
    ensures Total(xs) == SumBy(s, f)
  {
    if s != [] {
      SumByIsTotalOfMap(s[1..], f, xs[1..]);
    }
  }

  /** Sums over two sequences agree when their terms agree pointwise. */
  lemma {:induction false} SumByMap<T, U>(xs: seq<T>, ys: seq<U>, f: T -> int, g: U -> int)
    requires |xs| == |ys|
    requires forall i :: 0 <= i < |xs| ==> f(xs[i]) == g(ys[i])
    ensures SumBy(xs, f) == SumBy(ys, g)
  {
    if xs != [] {
      SumByMap(xs[1..], ys[1..], f, g);
    }
  }

  /** A non-empty sum of positive terms is positive. */
  lemma {:induction false} SumByPositive<T>(s: seq<T>, f: T -> int)
    requires s != []
    requires forall i :: 0 <= i < |s| ==> f(s[i]) > 0
    ensures SumBy(s, f) > 0
  {
    if |s| > 1 {
      SumByPositive(s[1..], f);
    }
  }

  /** Lexicographic order on code points: the order `sort()` gives ASCII
      strings such as "YYYY-MM" keys, and day order on "YYYY-MM-DD" dates. */
  predicate LexLe(a: string, b: string)
  {
    a == [] || (b != [] && (a[0] < b[0] || (a[0] == b[0] && LexLe(a[1..], b[1..]))))
  }

  lemma {:induction false} LexLeTotal(a: string, b: string)
    ensures LexLe(a, b) || LexLe(b, a)
  {
    if a != [] && b != [] && a[0] == b[0] {
      LexLeTotal(a[1..], b[1..]);
    }
  }

  lemma {:induction false} LexLeTransitive(a: string, b: string, c: string)
    requires LexLe(a, b) && LexLe(b, c)
    ensures LexLe(a, c)
  {
    if a != [] && a[0] == b[0] && b[0] == c[0] {
      LexLeTransitive(a[1..], b[1..], c[1..]);
    }
  }

  lemma {:induction false} LexLeReflexive(a: string)
    ensures LexLe(a, a)
  {
    if a != [] {
      LexLeReflexive(a[1..]);
    }
  }
}
