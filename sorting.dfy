/** `Array.prototype.sort`, which is stable: one insertion sort parameterised
    by a "may come before" relation, instantiated for the two orders the
    dashboard uses (descending by an integer quantity, and the default
    ascending string order used on month keys). */
module Sorting {
  import opened Seqs

  /** `le` is total and transitive: any two elements are comparable. */
  ghost predicate TotalPreorder<T(!new)>(le: (T, T) -> bool)
  {
    && (forall a, b :: le(a, b) || le(b, a))
    && (forall a, b, c :: le(a, b) && le(b, c) ==> le(a, c))
  }

  predicate SortedBy<T>(s: seq<T>, le: (T, T) -> bool)
  {
    forall i, j :: 0 <= i < j < |s| ==> le(s[i], s[j])
  }

  /** Inserts `x` before the first element it may precede, so that `x`,
      which comes earlier in the input than everything in `t`, stays ahead
      of the elements it ties with. */
  function Insert<T(!new)>(x: T, t: seq<T>, le: (T, T) -> bool): (r: seq<T>)
    ensures |r| == |t| + 1
    ensures multiset(r) == multiset(t) + multiset{x}
    ensures forall y :: y in r <==> y == x || y in t
    ensures NoDups(t) && x !in t ==> NoDups(r)
    ensures TotalPreorder(le) && SortedBy(t, le) ==> SortedBy(r, le)
  {
    if t == [] || le(x, t[0]) then
      [x] + t
    else
      var rest := Insert(x, t[1..], le);
      assert t == [t[0]] + t[1..];
      assert NoDups(t) && x !in t ==> t[0] !in rest && NoDups(rest);
      assert TotalPreorder(le) && SortedBy(t, le) ==>
        le(t[0], x) && SortedBy(t[1..], le) && forall y :: y in rest ==> le(t[0], y);
      [t[0]] + rest
  }

  /** Stable insertion sort. */
  function SortBy<T(!new)>(s: seq<T>, le: (T, T) -> bool): (r: seq<T>)
    ensures |r| == |s|
    ensures multiset(r) == multiset(s)
    ensures forall y :: y in r <==> y in s
    ensures NoDups(s) ==> NoDups(r)
    ensures TotalPreorder(le) ==> SortedBy(r, le)
  {
    if s == [] then []
    else
      assert s == [s[0]] + s[1..];
      Insert(s[0], SortBy(s[1..], le), le)
  }

  /** The elements `le` cannot tell apart from `y`. */
  function EquivTo<T>(le: (T, T) -> bool, y: T): T -> bool
  {
    x => le(x, y) && le(y, x)
  }

  lemma {:induction false} InsertStable<T(!new)>(x: T, t: seq<T>, le: (T, T) -> bool, y: T)
    requires TotalPreorder(le)
    ensures Filter(Insert(x, t, le), EquivTo(le, y)) == Filter([x] + t, EquivTo(le, y))
  {
    if t != [] && !le(x, t[0]) {
      var p := EquivTo(le, y);
      InsertStable(x, t[1..], le, y);
      assert t == [t[0]] + t[1..];
      assert Insert(x, t, le) == [t[0]] + Insert(x, t[1..], le);
      if p(x) {
        assert !p(t[0]);
        assert Filter([x] + t, p) == [x] + Filter(t, p);
        assert ([x] + t[1..])[1..] == t[1..];
      } else {
        assert Filter([x] + t, p) == Filter(t, p);
        assert ([x] + t[1..])[1..] == t[1..];
      }
    }
  }

  /** Stability: elements that tie keep their input order. */
  lemma {:induction false} SortByStable<T(!new)>(s: seq<T>, le: (T, T) -> bool, y: T)
    requires TotalPreorder(le)
    ensures Filter(SortBy(s, le), EquivTo(le, y)) == Filter(s, EquivTo(le, y))
  {
    if s != [] {
      var p := EquivTo(le, y);
      SortByStable(s[1..], le, y);
      InsertStable(s[0], SortBy(s[1..], le), le, y);
      assert ([s[0]] + SortBy(s[1..], le))[1..] == SortBy(s[1..], le);
    }
  }

  // ----- descending by an integer key: `arr.sort((a, b) => key(b) - key(a))`

  function ByKeyDesc<T>(key: T -> int): (T, T) -> bool
  {
    (a, b) => key(a) >= key(b)
  }

  function HasKey<T>(key: T -> int, v: int): T -> bool
  {
    x => key(x) == v
  }

  lemma ByKeyDescIsTotalPreorder<T(!new)>(key: T -> int)
    ensures TotalPreorder(ByKeyDesc(key))
  {
  }

  /** Sorted non-increasing by `key`; a permutation of the input. */
  function SortDesc<T(!new)>(s: seq<T>, key: T -> int): (r: seq<T>)
    ensures |r| == |s|
    ensures multiset(r) == multiset(s)
    ensures forall y :: y in r <==> y in s
    ensures NoDups(s) ==> NoDups(r)
    ensures forall i, j :: 0 <= i < j < |r| ==> key(r[i]) >= key(r[j])
  {
    ByKeyDescIsTotalPreorder(key);
    var r := SortBy(s, ByKeyDesc(key));
    assert SortedBy(r, ByKeyDesc(key));
    r
  }

  /** Rows with equal keys appear in the sorted output in the order they had
      in the input (`Array.prototype.sort` is stable). */
  lemma SortDescStable<T(!new)>(s: seq<T>, key: T -> int, v: int)
    ensures Filter(SortDesc(s, key), HasKey(key, v)) == Filter(s, HasKey(key, v))
  {
    var le := ByKeyDesc(key);
    ByKeyDescIsTotalPreorder(key);
    if y :| y in s && key(y) == v {
      SortByStable(s, le, y);
      FilterCongruent(SortDesc(s, key), EquivTo(le, y), HasKey(key, v));
      FilterCongruent(s, EquivTo(le, y), HasKey(key, v));
    } else {
      var r := SortDesc(s, key);
      FilterNone(s, HasKey(key, v));
      assert forall i :: 0 <= i < |r| ==> r[i] in s;
      FilterNone(r, HasKey(key, v));
    }
  }

  // ----- ascending strings: the default `arr.sort()` on month keys

  lemma LexLeIsTotalPreorder()
    ensures TotalPreorder(LexLe)
  {
    forall a, b ensures LexLe(a, b) || LexLe(b, a) {
      LexLeTotal(a, b);
    }
    forall a, b, c | LexLe(a, b) && LexLe(b, c) ensures LexLe(a, c) {
      LexLeTransitive(a, b, c);
    }
  }

  /** `keys.sort()` on distinct keys: strictly ascending, same elements. */
  function SortStrings(ks: seq<string>): (r: seq<string>)
    requires NoDups(ks)
    ensures |r| == |ks|
    ensures forall k :: k in r <==> k in ks
    ensures multiset(r) == multiset(ks)
    ensures NoDups(r)
    ensures forall i, j :: 0 <= i < j < |r| ==> LexLe(r[i], r[j]) && r[i] != r[j]
  {
    LexLeIsTotalPreorder();
    SortBy(ks, LexLe)
  }

  // ----- one row per distinct key, ranked

  /** `keys.map(rowOf)`: one row per key, in key order. */
  function RowsOf<R>(ks: seq<string>, rowOf: string -> R): (rows: seq<R>)
    ensures |rows| == |ks|
    ensures forall i :: 0 <= i < |ks| ==> rows[i] == rowOf(ks[i])
  {
    seq(|ks|, i requires 0 <= i < |ks| => rowOf(ks[i]))
  }

  /** Ranking rows built from distinct keys keeps one row per key: each
      ranked row is the row of its own key, every key has a row, no key has
      two, and a sum over the rows is the sum over the keys. */
  lemma RankedRows<R(!new)>(ks: seq<string>, rowOf: string -> R, name: R -> string, q: R -> int, f: R -> int, g: string -> int)
    requires NoDups(ks)
    requires forall k :: name(rowOf(k)) == k
    requires forall k :: k in ks ==> f(rowOf(k)) == g(k)
    ensures var rows := SortDesc(RowsOf(ks, rowOf), q);
      && |rows| == |ks|
      && (forall i :: 0 <= i < |rows| ==> name(rows[i]) in ks && rows[i] == rowOf(name(rows[i])))
      && (forall k :: k in ks ==> exists i :: 0 <= i < |rows| && name(rows[i]) == k)
      && (forall i, j :: 0 <= i < j < |rows| ==> name(rows[i]) != name(rows[j]))
      && SumBy(rows, f) == SumBy(ks, g)
  {
    var arr := RowsOf(ks, rowOf);
    var rows := SortDesc(arr, q);
    assert NoDups(arr) by {
      forall i, j | 0 <= i < j < |arr| ensures arr[i] != arr[j] {
        assert name(arr[i]) == ks[i] && name(arr[j]) == ks[j];
      }
    }
    forall i | 0 <= i < |rows| ensures name(rows[i]) in ks && rows[i] == rowOf(name(rows[i])) {
      assert rows[i] in arr;
      var j :| 0 <= j < |arr| && arr[j] == rows[i];
      assert name(rows[i]) == ks[j];
    }
    forall k | k in ks ensures exists i :: 0 <= i < |rows| && name(rows[i]) == k {
      var j :| 0 <= j < |ks| && ks[j] == k;
      assert arr[j] in rows;
      var i :| 0 <= i < |rows| && rows[i] == arr[j];
      assert name(rows[i]) == k;
    }
    SumByPermutation(rows, arr, f);
    SumByMap(arr, ks, f, g);
  }
}
