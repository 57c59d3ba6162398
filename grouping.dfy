/** Group-by as the dashboard writes it: a `forEach` that skips some records,
    computes a string key for the rest and accumulates into `map[key]`.
    `FirstSeen` is the key order of that map (`Object.keys` / `Object.values`
    enumerate keys in insertion order) and `Group` the records that were
    accumulated under one key. */
module Grouping {
  import opened Seqs

  /** The distinct keys of the kept elements, in the order first seen. */
  function FirstSeen<T>(s: seq<T>, keep: T -> bool, key: T -> string): (ks: seq<string>)
    ensures NoDups(ks)
    ensures forall k :: k in ks <==> exists i :: 0 <= i < |s| && keep(s[i]) && key(s[i]) == k
  {
    if s == [] then []
    else
      var init := s[..|s| - 1];
      var ks := FirstSeen(init, keep, key);
      var x := s[|s| - 1];
      assert forall i :: 0 <= i < |init| ==> init[i] == s[i];
      if keep(x) && key(x) !in ks then ks + [key(x)] else ks
  }

  function InGroup<T>(keep: T -> bool, key: T -> string, k: string): T -> bool
  {
    x => keep(x) && key(x) == k
  }

  /** The records accumulated under key `k`, in input order. */
  function Group<T(==)>(s: seq<T>, keep: T -> bool, key: T -> string, k: string): seq<T>
  {
    Filter(s, InGroup(keep, key, k))
  }

  /** The sum of `f` over the records accumulated under each key. */
  function GroupTotal<T(==)>(s: seq<T>, keep: T -> bool, key: T -> string, f: T -> int): string -> int
  {
    k => SumBy(Group(s, keep, key, k), f)
  }

  lemma FirstSeenSnoc<T>(s: seq<T>, x: T, keep: T -> bool, key: T -> string)
    ensures FirstSeen(s + [x], keep, key) ==
      if keep(x) && key(x) !in FirstSeen(s, keep, key)
      then FirstSeen(s, keep, key) + [key(x)]
      else FirstSeen(s, keep, key)
  {
    assert (s + [x])[..|s|] == s;
  }

  /** One more record changes only its own group, by appending itself. */
  lemma GroupSnoc<T>(s: seq<T>, x: T, keep: T -> bool, key: T -> string, k: string)
    ensures Group(s + [x], keep, key, k) ==
      Group(s, keep, key, k) + (if keep(x) && key(x) == k then [x] else [])
  {
    FilterAppend(s, [x], InGroup(keep, key, k));
  }

  lemma GroupTotalSnoc<T>(s: seq<T>, x: T, keep: T -> bool, key: T -> string, f: T -> int, k: string)
    ensures GroupTotal(s + [x], keep, key, f)(k) ==
      GroupTotal(s, keep, key, f)(k) + (if keep(x) && key(x) == k then f(x) else 0)
  {
    GroupSnoc(s, x, keep, key, k);
    SumByAppend(Group(s, keep, key, k), if keep(x) && key(x) == k then [x] else [], f);
  }

  /** A group holds only kept records with its key. */
  lemma GroupMember<T>(s: seq<T>, keep: T -> bool, key: T -> string, k: string, x: T)
    requires x in Group(s, keep, key, k)
    ensures x in s && keep(x) && key(x) == k
  {
    var p := InGroup(keep, key, k);
    FilterMembers(s, p);
    assert x in Filter(s, p);
    assert x in s && p(x);
  }

  /** A key that was never seen has an empty group. */
  lemma GroupOfUnseenKey<T>(s: seq<T>, keep: T -> bool, key: T -> string, k: string)
    requires k !in FirstSeen(s, keep, key)
    ensures Group(s, keep, key, k) == []
  {
    FilterNone(s, InGroup(keep, key, k));
  }

  /** Every key that was seen has a non-empty group. */
  lemma GroupOfSeenKey<T>(s: seq<T>, keep: T -> bool, key: T -> string, k: string)
    requires k in FirstSeen(s, keep, key)
    ensures Group(s, keep, key, k) != []
  {
    var i :| 0 <= i < |s| && keep(s[i]) && key(s[i]) == k;
    FilterMembers(s, InGroup(keep, key, k));
    assert s[i] in Group(s, keep, key, k);
  }

  /** Adding `d` to the value of one key adds `d` to a sum over distinct keys
      exactly when the key is among them. */
  lemma {:induction false} SumByBump(ks: seq<string>, g: string -> int, h: string -> int, j: string, d: int)
    requires NoDups(ks)
    requires forall k :: k in ks ==> g(k) == h(k) + (if k == j then d else 0)
    ensures SumBy(ks, g) == SumBy(ks, h) + (if j in ks then d else 0)
  {
    if ks != [] {
      assert NoDups(ks[1..]);
      SumByBump(ks[1..], g, h, j, d);
      assert ks[0] == j ==> j !in ks[1..];
    }
  }

  lemma ConservationStep<T>(init: seq<T>, x: T, keep: T -> bool, key: T -> string, f: T -> int)
    ensures SumBy(FirstSeen(init + [x], keep, key), GroupTotal(init + [x], keep, key, f)) ==
      SumBy(FirstSeen(init, keep, key), GroupTotal(init, keep, key, f)) + (if keep(x) then f(x) else 0)
  {
    var ks := FirstSeen(init, keep, key);
    var g, h := GroupTotal(init + [x], keep, key, f), GroupTotal(init, keep, key, f);
    var d := if keep(x) then f(x) else 0;
    FirstSeenSnoc(init, x, keep, key);
    forall k | k in ks + [key(x)]
      ensures g(k) == h(k) + (if k == key(x) then d else 0)
    {
      GroupTotalSnoc(init, x, keep, key, f, k);
    }
    SumByBump(ks, g, h, key(x), d);
    if keep(x) && key(x) !in ks {
      SumByAppend(ks, [key(x)], g);
      GroupOfUnseenKey(init, keep, key, key(x));
      assert h(key(x)) == 0;
    }
  }

  /** Nothing is lost or counted twice: the group totals over all keys add up
      to the total over the kept records. */
  lemma {:induction false} Conservation<T>(s: seq<T>, keep: T -> bool, key: T -> string, f: T -> int)
    ensures SumBy(FirstSeen(s, keep, key), GroupTotal(s, keep, key, f)) == SumBy(Filter(s, keep), f)
    decreases |s|
  {
    if s != [] {
      var init, x := s[..|s| - 1], s[|s| - 1];
      assert s == init + [x];
      Conservation(init, keep, key, f);
      ConservationStep(init, x, keep, key, f);
      FilterAppend(init, [x], keep);
      SumByAppend(Filter(init, keep), Filter([x], keep), f);
    }
  }

  function One<T>(x: T): int
  {
    1
  }

  lemma {:induction false} SumOfOnesIsLength<T>(s: seq<T>)
    ensures SumBy(s, One) == |s|
  {
    if s != [] {
      SumOfOnesIsLength(s[1..]);
    }
  }

  // ----- keyed accumulators

  /** `g.reduce(step, a)`, folding from the left. */
  function Fold<T, A>(a: A, g: seq<T>, step: (A, T) -> A): A
  {
    if g == [] then a else step(Fold(a, g[..|g| - 1], step), g[|g| - 1])
  }

  lemma FoldSnoc<T, A>(a: A, g: seq<T>, x: T, step: (A, T) -> A)
    ensures Fold(a, g + [x], step) == step(Fold(a, g, step), x)
  {
    assert (g + [x])[..|g|] == g;
  }

  /** The entry a keyed accumulator holds for a seen key `k`: created from
      the first record of the group, then every record of the group folded
      into it in input order. */
  function Entry<T(==), A>(s: seq<T>, keep: T -> bool, key: T -> string, start: T -> A, step: (A, T) -> A, k: string): A
    requires k in FirstSeen(s, keep, key)
  {
    var g := Group(s, keep, key, k);
    GroupOfSeenKey(s, keep, key, k);
    Fold(start(g[0]), g, step)
  }

  /** An entry only depends on its group. */
  lemma EntryOfGroup<T, A>(s: seq<T>, keep: T -> bool, key: T -> string, start: T -> A, step: (A, T) -> A, k: string, g: seq<T>)
    requires k in FirstSeen(s, keep, key)
    requires g == Group(s, keep, key, k)
    ensures g != [] && Entry(s, keep, key, start, step, k) == Fold(start(g[0]), g, step)
  {
    GroupOfSeenKey(s, keep, key, k);
  }

  /** `keys` and `m` are the state of a keyed accumulator after the records
      `s`: the keys in the order first added, and each key's entry. */
  ghost predicate Tracks<T, A>(keys: seq<string>, m: map<string, A>, s: seq<T>, keep: T -> bool, key: T -> string,
                               start: T -> A, step: (A, T) -> A)
  {
    && keys == FirstSeen(s, keep, key)
    && (forall k :: k in m <==> k in keys)
    && (forall k :: k in m ==> m[k] == Entry(s, keep, key, start, step, k))
  }

  /** A record that is skipped changes nothing. */
  lemma TracksSkip<T, A>(keys: seq<string>, m: map<string, A>, s: seq<T>, x: T, keep: T -> bool, key: T -> string,
                         start: T -> A, step: (A, T) -> A)
    requires Tracks(keys, m, s, keep, key, start, step)
    requires !keep(x)
    ensures Tracks(keys, m, s + [x], keep, key, start, step)
  {
    FirstSeenSnoc(s, x, keep, key);
    forall k | k in m ensures m[k] == Entry(s + [x], keep, key, start, step, k) {
      GroupSnoc(s, x, keep, key, k);
      var g := Group(s, keep, key, k);
      EntryOfGroup(s, keep, key, start, step, k, g);
      EntryOfGroup(s + [x], keep, key, start, step, k, g);
    }
  }

  /** A kept record is folded into its key's entry, which is created from it
      at the end of the key order when the key is new. */
  lemma TracksAdd<T, A>(keys: seq<string>, m: map<string, A>, s: seq<T>, x: T, keep: T -> bool, key: T -> string,
                        start: T -> A, step: (A, T) -> A, keys': seq<string>, m': map<string, A>)
    requires Tracks(keys, m, s, keep, key, start, step)
    requires keep(x)
    requires keys' == if key(x) in m then keys else keys + [key(x)]
    requires m' == m[key(x) := step(if key(x) in m then m[key(x)] else start(x), x)]
    ensures Tracks(keys', m', s + [x], keep, key, start, step)
  {
    var k := key(x);
    FirstSeenSnoc(s, x, keep, key);
    assert keys' == FirstSeen(s + [x], keep, key);
    var g := Group(s, keep, key, k);
    GroupSnoc(s, x, keep, key, k);
    EntryOfGroup(s + [x], keep, key, start, step, k, g + [x]);
    if k in m {
      EntryOfGroup(s, keep, key, start, step, k, g);
      assert (g + [x])[0] == g[0];
      FoldSnoc(start(g[0]), g, x, step);
    } else {
      GroupOfUnseenKey(s, keep, key, k);
      assert g + [x] == [x];
      FoldSnoc(start(x), [], x, step);
    }
    assert m'[k] == Entry(s + [x], keep, key, start, step, k);
    forall j ensures j in m' <==> j in keys' {
      assert j in keys' <==> j in keys || j == k;
    }
    forall j | j in m' && j != k ensures m'[j] == Entry(s + [x], keep, key, start, step, j) {
      GroupSnoc(s, x, keep, key, j);
      var gj := Group(s, keep, key, j);
      EntryOfGroup(s, keep, key, start, step, j, gj);
      EntryOfGroup(s + [x], keep, key, start, step, j, gj);
    }
  }

  /** `s.forEach(x => { if (!keep(x)) return; if (!map[key(x)]) map[key(x)] = start(x);
      map[key(x)] = step(map[key(x)], x); })`: an object used as a keyed
      accumulator. `keys` is the insertion order of its properties, which is
      the order `Object.keys` and `Object.values` enumerate them in. */
  method AccumulateBy<T(==), A>(s: seq<T>, keep: T -> bool, key: T -> string, start: T -> A, step: (A, T) -> A)
    returns (keys: seq<string>, m: map<string, A>)
    ensures keys == FirstSeen(s, keep, key)
    ensures forall k :: k in m <==> k in keys
    ensures forall k :: k in m ==> m[k] == Entry(s, keep, key, start, step, k)
  {
    keys, m := [], map[];
    for i := 0 to |s|
      invariant Tracks(keys, m, s[..i], keep, key, start, step)
    {
      var x := s[i];
      assert s[..i + 1] == s[..i] + [x];
      ghost var keys0, m0 := keys, m;
      if keep(x) {
        var k := key(x);
        if k !in m {
          m := m[k := start(x)];
          keys := keys + [k];
        }
        m := m[k := step(m[k], x)];
        TracksAdd(keys0, m0, s[..i], x, keep, key, start, step, keys, m);
      } else {
        TracksSkip(keys, m, s[..i], x, keep, key, start, step);
      }
    }
    assert s[..|s|] == s;
  }

  // ----- summing accumulators: `map[k] = (map[k] || 0) + f(x)`

  function Zero<T>(x: T): int
  {
    0
  }

  function Adder<T>(f: T -> int): (int, T) -> int
  {
    (a, x) => a + f(x)
  }

  /** A summing fold adds up `f` over the group. */
  lemma {:induction false} FoldAdder<T>(a: int, g: seq<T>, f: T -> int)
    ensures Fold(a, g, Adder(f)) == a + SumBy(g, f)
  {
    if g != [] {
      var init := g[..|g| - 1];
      FoldAdder(a, init, f);
      assert g == init + [g[|g| - 1]];
      SumByAppend(init, [g[|g| - 1]], f);
    }
  }

  /** The entry of a summing accumulator is the group total. */
  lemma SummingEntry<T>(s: seq<T>, keep: T -> bool, key: T -> string, f: T -> int, k: string)
    requires k in FirstSeen(s, keep, key)
    ensures Entry(s, keep, key, Zero, Adder(f), k) == GroupTotal(s, keep, key, f)(k)
  {
    var g := Group(s, keep, key, k);
    GroupOfSeenKey(s, keep, key, k);
    FoldAdder(Zero(g[0]), g, f);
  }
}
