/** The two ledgers the dashboard aggregates and the normalisers every
    calculator applies to their fields: JavaScript truthiness (`x || 0`,
    `x || ""`, `if (!x) return`), `monthKey`, ASCII lower-casing for the
    status word, `trim`, ISO-date comparison and the lakh scale. */
module Records {
  import opened Seqs

  datatype Option<T> = None | Some(value: T)
  {
    /** `x || d` for a field whose only falsy value is its absence. */
    function GetOr(d: T): T
    {
      match this
      case Some(v) => v
      case None => d
    }
  }

  /** A line of the sales ledger. Invoice numbers repeat across lines. */
  datatype Sale = Sale(
    invoiceNo: Option<string>,
    date: Option<string>,
    dueDate: Option<string>,
    value: Option<int>)

  /** A line of the purchase-order / dispatch ledger. `sku` and `product`
      are the alternative SKU columns one ranking falls back on. */
  datatype Order = Order(
    poNumber: Option<string>,
    jobName: Option<string>,
    sku: Option<string>,
    product: Option<string>,
    brand: Option<string>,
    date: Option<string>,
    status: Option<string>,
    orderQty: Option<int>,
    dispQty: Option<int>,
    value: Option<int>,
    poCount: Option<int>)

  // ----- truthiness and numeric coercion

  /** A string field is truthy when present and non-empty. */
  predicate Truthy(s: Option<string>)
  {
    s.Some? && s.value != ""
  }

  /** A number field is truthy when present and non-zero. */
  predicate NonZero(v: Option<int>)
  {
    v.Some? && v.value != 0
  }

  /** `Number(x) || 0`: a missing number counts as zero. */
  function Num(v: Option<int>): int
  {
    v.GetOr(0)
  }

  /** `str || ""`. */
  function Str(s: Option<string>): string
  {
    s.GetOr("")
  }

  function SaleValue(x: Sale): int { Num(x.value) }
  function OrderValue(o: Order): int { Num(o.value) }
  function OrderQty(o: Order): int { Num(o.orderQty) }
  function DispQty(o: Order): int { Num(o.dispQty) }
  function InvoiceNo(x: Sale): Option<string> { x.invoiceNo }
  function PoNumber(o: Order): Option<string> { o.poNumber }
  function JobName(o: Order): Option<string> { o.jobName }

  // ----- strings

  /** `s.slice(0, n)` for `n >= 0`. */
  function Prefix(s: string, n: nat): (r: string)
    ensures |r| == if n < |s| then n else |s|
    ensures r <= s
  {
    if n < |s| then s[..n] else s
  }

  /** The end index `arr.slice(0, end)` stops at: a negative `end` counts
      back from the end of the array. */
  function SliceEnd(len: nat, end: int): (e: nat)
    ensures e <= len
    ensures end >= 0 ==> e == if end < len then end else len
    ensures end < 0 ==> e == if len + end > 0 then len + end else 0
  {
    if end < 0 then (if len + end > 0 then len + end else 0)
    else if end < len then end else len
  }

  /** `monthKey(dateStr)`: the first seven characters ("YYYY-MM") of a
      present date, or "" for a missing or empty one. No validation. */
  function MonthKey(date: Option<string>): (k: string)
    ensures !Truthy(date) ==> k == ""
    ensures Truthy(date) ==> k <= date.value && |k| == if |date.value| < 7 then |date.value| else 7
    ensures Truthy(date) ==> k != ""
  {
    if Truthy(date) then Prefix(date.value, 7) else ""
  }

  /** For a seven-character month `m`, `monthKey(d) === m` and
      `d && d.startsWith(m)` select the same records. */
  lemma MonthKeyIsSevenCharPrefix(date: Option<string>, m: string)
    requires |m| == 7
    ensures MonthKey(date) == m <==> Truthy(date) && m <= date.value
  {
    if Truthy(date) && m <= date.value {
      assert date.value[..7] == m;
    }
  }

  function LowerChar(c: char): char
  {
    if 'A' <= c <= 'Z' then (c as int + 32) as char else c
  }

  /** `toLowerCase()` on ASCII letters; other characters are kept. */
  function Lower(s: string): string
  {
    seq(|s|, i requires 0 <= i < |s| => LowerChar(s[i]))
  }

  /** `(status || "").toLowerCase() === word`. */
  predicate StatusIs(status: Option<string>, word: string)
  {
    Lower(Str(status)) == word
  }

  predicate IsComplete(o: Order) { StatusIs(o.status, "complete") }
  predicate IsIncomplete(o: Order) { StatusIs(o.status, "incomplete") }
  predicate NotComplete(o: Order) { !IsComplete(o) }

  /** Case does not matter: "Incomplete" and "INCOMPLETE" count as
      "incomplete"; lower-casing adds or removes no character, so
      "in complete" does not. */
  lemma IncompleteIgnoresCase()
    ensures StatusIs(Some("Incomplete"), "incomplete")
    ensures StatusIs(Some("INCOMPLETE"), "incomplete")
    ensures !StatusIs(Some("in complete"), "incomplete")
  {
    var r := Lower("Incomplete");
    assert r[0] == 'i';
    assert forall i :: 1 <= i < 10 ==> r[i] == "Incomplete"[i];
    var u := Lower("INCOMPLETE");
    assert forall i :: 0 <= i < 10 ==> u[i] == "incomplete"[i];
  }

  /** "Complete" and "COMPLETE" count as "complete". */
  lemma CompleteIgnoresCase()
    ensures StatusIs(Some("Complete"), "complete")
    ensures StatusIs(Some("COMPLETE"), "complete")
  {
    var r := Lower("Complete");
    assert r[0] == 'c';
    assert forall i :: 1 <= i < 8 ==> r[i] == "Complete"[i];
    var u := Lower("COMPLETE");
    assert forall i :: 0 <= i < 8 ==> u[i] == "complete"[i];
  }

  /** "cancelled", the empty status and a missing status are neither word. */
  lemma OtherStatusesAreNeither()
    ensures !StatusIs(Some("cancelled"), "incomplete") && !StatusIs(Some("cancelled"), "complete")
    ensures !StatusIs(Some(""), "incomplete") && !StatusIs(Some(""), "complete")
    ensures !StatusIs(None, "incomplete") && !StatusIs(None, "complete")
  {
  }

  /** A status is never both words at once. */
  lemma StatusesExclusive(o: Order)
    ensures !(IsComplete(o) && IsIncomplete(o))
  {
  }

  /** The characters `String.prototype.trim` removes: white space and line
      terminators. */
  predicate IsWhite(c: char)
  {
    var n := c as int;
    || 9 <= n <= 13 || n == 0x20 || n == 0xA0 || n == 0x1680 || 0x2000 <= n <= 0x200A
    || n == 0x2028 || n == 0x2029 || n == 0x202F || n == 0x205F || n == 0x3000 || n == 0xFEFF
  }

  /** The index of the first non-white character at or after `i`. */
  function SkipWhite(s: string, i: nat): (j: nat)
    requires i <= |s|
    ensures i <= j <= |s|
    ensures forall k :: i <= k < j ==> IsWhite(s[k])
    ensures j < |s| ==> !IsWhite(s[j])
    decreases |s| - i
  {
    if i < |s| && IsWhite(s[i]) then SkipWhite(s, i + 1) else i
  }

  /** The end of `s[lo..hi]` once its trailing white characters are cut. */
  function SkipWhiteBack(s: string, lo: nat, hi: nat): (e: nat)
    requires lo <= hi <= |s|
    ensures lo <= e <= hi
    ensures forall k :: e <= k < hi ==> IsWhite(s[k])
    ensures e > lo ==> !IsWhite(s[e - 1])
  {
    if hi > lo && IsWhite(s[hi - 1]) then SkipWhiteBack(s, lo, hi - 1) else hi
  }

  /** `s.trim()`: `s` without its leading and trailing white characters. */
  function Trim(s: string): (r: string)
    ensures |r| <= |s|
    ensures r != [] ==> !IsWhite(r[0]) && !IsWhite(r[|r| - 1])
    ensures (s == [] || (!IsWhite(s[0]) && !IsWhite(s[|s| - 1]))) ==> r == s
    ensures (forall k :: 0 <= k < |s| ==> IsWhite(s[k])) ==> r == []
    ensures exists i, e ::
      && 0 <= i <= e <= |s| && r == s[i..e]
      && (forall k :: 0 <= k < i ==> IsWhite(s[k])) && (forall k :: e <= k < |s| ==> IsWhite(s[k]))
  {
    var i := SkipWhite(s, 0);
    var e := SkipWhiteBack(s, i, |s|);
    assert s != [] && !IsWhite(s[0]) ==> i == 0;
    s[i..e]
  }

  // ----- dates

  predicate IsDigit(c: char) { '0' <= c <= '9' }

  /** A zero-padded "YYYY-MM-DD" string: the shape the ledgers store and the
      only shape this model lets `new Date` parse. */
  predicate IsIsoDate(d: string)
  {
    && |d| == 10
    && IsDigit(d[0]) && IsDigit(d[1]) && IsDigit(d[2]) && IsDigit(d[3]) && d[4] == '-'
    && IsDigit(d[5]) && IsDigit(d[6]) && d[7] == '-' && IsDigit(d[8]) && IsDigit(d[9])
  }

  /** `new Date(d) <= new Date(today)`: false when either side does not parse
      (a missing due date is an Invalid Date), otherwise day order. */
  predicate OnOrBefore(d: Option<string>, today: string)
  {
    d.Some? && IsIsoDate(d.value) && IsIsoDate(today) && LexLe(d.value, today)
  }

  /** The boundary is inclusive: a due date equal to the reference day is
      on or before it, the day after is not, and a missing one never is. */
  lemma OnOrBeforeBoundary()
    ensures OnOrBefore(Some("2025-12-20"), "2025-12-20")
    ensures !OnOrBefore(Some("2025-12-21"), "2025-12-20")
    ensures !OnOrBefore(None, "2025-12-20")
  {
    LexLeReflexive("2025-12-20");
    var a, b := "2025-12-21", "2025-12-20";
    assert a[..9] == b[..9] && a[9] > b[9];
    assert a[9..] == "1" && b[9..] == "0";
  }

  // ----- money

  /** The display unit: 1 lakh = 100000. */
  const Lakh: real := 100000.0

  /** Raw units divided once by a lakh. */
  function InLakh(raw: int): (r: real)
    ensures r * Lakh == raw as real
    ensures raw >= 0 ==> r >= 0.0
  {
    raw as real / Lakh
  }
}
