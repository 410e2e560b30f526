/**
 * Shared building blocks for the whole model: an Option type, the code-unit
 * order on strings (how ISO dates are compared by `localeCompare`, by Python's
 * `sorted` and by the database), a stable sort, a duplicate-free sort, the
 * JavaScript `split` / `trim` / `parseInt` / `parseFloat` behaviour that the
 * frontend relies on, and decimal printing of integers.
 */
module Common {

  datatype Option<T> = None | Some(value: T) {
    function GetOr(default: T): T {
      if Some? then value else default
    }
  }

  /** JavaScript truthiness of a `string | null` value: present and not empty. */
  predicate Truthy(s: Option<string>) {
    s.Some? && s.value != ""
  }

  // ------------------------------------------------------------------
  // Lexicographic order on strings
  // ------------------------------------------------------------------

  /** `a` sorts strictly before `b`: a proper prefix, or smaller at the first difference. */
  predicate Less(a: string, b: string)
    decreases |a|
  {
    if |a| == 0 then |b| > 0
    else if |b| == 0 then false
    else a[0] < b[0] || (a[0] == b[0] && Less(a[1..], b[1..]))
  }

  predicate LessEq(a: string, b: string) {
    a == b || Less(a, b)
  }

  lemma {:induction false} LessIrreflexive(a: string)
    ensures !Less(a, a)
    decreases |a|
  {
    if |a| > 0 {
      LessIrreflexive(a[1..]);
    }
  }

  lemma {:induction false} LessTransitive(a: string, b: string, c: string)
    requires Less(a, b) && Less(b, c)
    ensures Less(a, c)
    decreases |a|
  {
    if |a| > 0 && a[0] == b[0] && b[0] == c[0] {
      LessTransitive(a[1..], b[1..], c[1..]);
    }
  }

  lemma {:induction false} LessTotal(a: string, b: string)
    requires a != b
    ensures Less(a, b) || Less(b, a)
    decreases |a|
  {
    if |a| > 0 && |b| > 0 && a[0] == b[0] {
      assert a == [a[0]] + a[1..] && b == [b[0]] + b[1..];
      LessTotal(a[1..], b[1..]);
    }
  }

  lemma LessAsymmetric(a: string, b: string)
    requires Less(a, b)
    ensures !Less(b, a)
  {
    if Less(b, a) {
      LessTransitive(a, b, a);
      LessIrreflexive(a);
    }
  }

  lemma LessEqTransitive(a: string, b: string, c: string)
    requires LessEq(a, b) && LessEq(b, c)
    ensures LessEq(a, c)
  {
    if a != b && b != c {
      LessTransitive(a, b, c);
    }
  }

  // ------------------------------------------------------------------
  // Stable sort by a string key (ascending or descending)
  // ------------------------------------------------------------------

  /** `a` may come before `b` in a sort by key in the given direction. */
  predicate InOrder(a: string, b: string, descending: bool) {
    if descending then LessEq(b, a) else LessEq(a, b)
  }

  lemma InOrderTotal(a: string, b: string, descending: bool)
    ensures InOrder(a, b, descending) || InOrder(b, a, descending)
  {
    if a != b {
      LessTotal(a, b);
    }
  }

  lemma InOrderTransitive(a: string, b: string, c: string, descending: bool)
    requires InOrder(a, b, descending) && InOrder(b, c, descending)
    ensures InOrder(a, c, descending)
  {
    if descending {
      LessEqTransitive(c, b, a);
    } else {
      LessEqTransitive(a, b, c);
    }
  }

  ghost predicate SortedBy<T>(s: seq<T>, key: T -> string, descending: bool) {
    forall i, j :: 0 <= i < j < |s| ==> InOrder(key(s[i]), key(s[j]), descending)
  }

  /** Places `x` before the first element that it may precede (so before equal keys). */
  function InsertBy<T>(x: T, s: seq<T>, key: T -> string, descending: bool): seq<T> {
    if s == [] then [x]
    else if InOrder(key(x), key(s[0]), descending) then [x] + s
    else [s[0]] + InsertBy(x, s[1..], key, descending)
  }

  /** Insertion sort; elements with equal keys keep their input order. */
  function SortBy<T>(xs: seq<T>, key: T -> string, descending: bool): seq<T> {
    if xs == [] then [] else InsertBy(xs[0], SortBy(xs[1..], key, descending), key, descending)
  }

  lemma {:induction false} InsertByPermutes<T>(x: T, s: seq<T>, key: T -> string, descending: bool)
    ensures multiset(InsertBy(x, s, key, descending)) == multiset(s) + multiset{x}
  {
    if s != [] && !InOrder(key(x), key(s[0]), descending) {
      InsertByPermutes(x, s[1..], key, descending);
      assert s == [s[0]] + s[1..];
    }
  }

  lemma {:induction false} InsertByElements<T>(x: T, s: seq<T>, key: T -> string, descending: bool)
    ensures forall k :: 0 <= k < |InsertBy(x, s, key, descending)| ==>
              InsertBy(x, s, key, descending)[k] == x || InsertBy(x, s, key, descending)[k] in s
  {
    if s != [] && !InOrder(key(x), key(s[0]), descending) {
      InsertByElements(x, s[1..], key, descending);
      var t := InsertBy(x, s[1..], key, descending);
      var r := [s[0]] + t;
      forall k | 0 <= k < |r| ensures r[k] == x || r[k] in s {
        if k == 0 {
          assert r[0] == s[0];
        } else if t[k - 1] != x {
          var m :| 0 <= m < |s[1..]| && s[1..][m] == t[k - 1];
          assert s[m + 1] == r[k];
        }
      }
    }
  }

  /** The head of a sorted sequence may precede every element after it. */
  lemma HeadInOrder<T>(s: seq<T>, y: T, key: T -> string, descending: bool)
    requires SortedBy(s, key, descending) && s != [] && y in s[1..]
    ensures InOrder(key(s[0]), key(y), descending)
  {
    var m :| 0 <= m < |s[1..]| && s[1..][m] == y;
    assert s[m + 1] == y;
  }

  lemma {:induction false} InsertByOrdered<T>(x: T, s: seq<T>, key: T -> string, descending: bool)
    requires SortedBy(s, key, descending)
    ensures SortedBy(InsertBy(x, s, key, descending), key, descending)
  {
    var r := InsertBy(x, s, key, descending);
    if s == [] {
    } else if InOrder(key(x), key(s[0]), descending) {
      forall i, j | 0 <= i < j < |r| ensures InOrder(key(r[i]), key(r[j]), descending) {
        if i == 0 && j > 1 {
          InOrderTransitive(key(x), key(s[0]), key(s[j - 1]), descending);
        }
      }
    } else {
      InOrderTotal(key(x), key(s[0]), descending);
      InsertByOrdered(x, s[1..], key, descending);
      var t := InsertBy(x, s[1..], key, descending);
      InsertByElements(x, s[1..], key, descending);
      assert r == [s[0]] + t;
      forall k | 0 <= k < |t| ensures InOrder(key(s[0]), key(t[k]), descending) {
        if t[k] != x {
          HeadInOrder(s, t[k], key, descending);
        }
      }
      forall i, j | 0 <= i < j < |r| ensures InOrder(key(r[i]), key(r[j]), descending) {
        if i > 0 {
          assert r[i] == t[i - 1] && r[j] == t[j - 1];
        } else {
          assert r[j] == t[j - 1];
        }
      }
    }
  }

  lemma InsertBySorted<T>(x: T, s: seq<T>, key: T -> string, descending: bool)
    requires SortedBy(s, key, descending)
    ensures SortedBy(InsertBy(x, s, key, descending), key, descending)
    ensures multiset(InsertBy(x, s, key, descending)) == multiset(s) + multiset{x}
  {
    InsertByOrdered(x, s, key, descending);
    InsertByPermutes(x, s, key, descending);
  }

  lemma {:induction false} SortBySorted<T>(xs: seq<T>, key: T -> string, descending: bool)
    ensures SortedBy(SortBy(xs, key, descending), key, descending)
    ensures multiset(SortBy(xs, key, descending)) == multiset(xs)
  {
    if xs != [] {
      SortBySorted(xs[1..], key, descending);
      InsertBySorted(xs[0], SortBy(xs[1..], key, descending), key, descending);
      assert xs == [xs[0]] + xs[1..];
    }
  }

  lemma SortByLength<T>(xs: seq<T>, key: T -> string, descending: bool)
    ensures |SortBy(xs, key, descending)| == |xs|
  {
    SortBySorted(xs, key, descending);
    assert |multiset(SortBy(xs, key, descending))| == |multiset(xs)|;
  }

  // ------------------------------------------------------------------
  // Sorted, duplicate-free arrangement of a collection of strings
  // ------------------------------------------------------------------

  ghost predicate StrictlyIncreasing(s: seq<string>) {
    forall i, j :: 0 <= i < j < |s| ==> Less(s[i], s[j])
  }

  ghost predicate StrictlyDecreasing(s: seq<string>) {
    forall i, j :: 0 <= i < j < |s| ==> Less(s[j], s[i])
  }

  function InsertUnique(x: string, s: seq<string>): seq<string> {
    if s == [] then [x]
    else if x == s[0] then s
    else if Less(x, s[0]) then [x] + s
    else [s[0]] + InsertUnique(x, s[1..])
  }

  /** Python's `sorted(set(xs))`. */
  function SortedSet(xs: seq<string>): seq<string> {
    if xs == [] then [] else InsertUnique(xs[0], SortedSet(xs[1..]))
  }

  lemma {:induction false} InsertUniqueSorted(x: string, s: seq<string>)
    requires StrictlyIncreasing(s)
    ensures StrictlyIncreasing(InsertUnique(x, s))
    ensures forall y :: y in InsertUnique(x, s) <==> y == x || y in s
  {
    var r := InsertUnique(x, s);
    if s == [] {
    } else if x == s[0] {
    } else if Less(x, s[0]) {
      forall i, j | 0 <= i < j < |r| ensures Less(r[i], r[j]) {
        if i == 0 && j > 1 {
          LessTransitive(x, s[0], s[j - 1]);
        }
      }
    } else {
      LessTotal(x, s[0]);
      InsertUniqueSorted(x, s[1..]);
      var t := InsertUnique(x, s[1..]);
      assert r == [s[0]] + t;
      assert s == [s[0]] + s[1..];
      forall k | 0 <= k < |t| ensures Less(s[0], t[k]) {
        assert t[k] in t;
        if t[k] != x {
          assert t[k] in s[1..];
          var m :| 0 <= m < |s[1..]| && s[1..][m] == t[k];
          assert s[m + 1] == t[k];
        }
      }
    }
  }

  lemma {:induction false} SortedSetProperties(xs: seq<string>)
    ensures StrictlyIncreasing(SortedSet(xs))
    ensures forall y :: y in SortedSet(xs) <==> y in xs
  {
    if xs != [] {
      SortedSetProperties(xs[1..]);
      InsertUniqueSorted(xs[0], SortedSet(xs[1..]));
      assert xs == [xs[0]] + xs[1..];
    }
  }

  /** A strictly increasing sequence has no repeated element. */
  lemma IncreasingDistinct(s: seq<string>, i: int, j: int)
    requires StrictlyIncreasing(s) && 0 <= i < |s| && 0 <= j < |s| && i != j
    ensures s[i] != s[j]
  {
    if i < j { LessIrreflexive(s[i]); } else { LessIrreflexive(s[j]); }
  }

  /** `s.slice(0, n)` / `s[:n]`: the first `n` elements, or all of them. */
  function Take<T>(s: seq<T>, n: nat): (r: seq<T>)
    ensures |r| == if |s| <= n then |s| else n
    ensures forall i :: 0 <= i < |r| ==> r[i] == s[i]
  {
    if |s| <= n then s else s[..n]
  }

  /** `s.endsWith(suffix)` (JavaScript) and `s.endswith(suffix)` (Python). */
  predicate EndsWith(s: string, suffix: string) {
    |suffix| <= |s| && s[|s| - |suffix|..] == suffix
  }

  function Reverse<T>(s: seq<T>): (r: seq<T>)
    ensures |r| == |s|
    ensures forall k :: 0 <= k < |s| ==> r[k] == s[|s| - 1 - k]
  {
    if s == [] then [] else Reverse(s[1..]) + [s[0]]
  }

  // ------------------------------------------------------------------
  // Last element with a given key (what a dict / Map built from a list keeps)
  // ------------------------------------------------------------------

  function LastWithKey<T>(xs: seq<T>, key: T -> string, k: string): (r: Option<T>)
    ensures r.None? <==> forall i :: 0 <= i < |xs| ==> key(xs[i]) != k
    ensures r.Some? ==> exists i :: 0 <= i < |xs| && xs[i] == r.value && key(xs[i]) == k &&
                                    forall j :: i < j < |xs| ==> key(xs[j]) != k
  {
    if xs == [] then None
    else if key(xs[|xs| - 1]) == k then Some(xs[|xs| - 1])
    else
      var r := LastWithKey(xs[..|xs| - 1], key, k);
      LastWithKeyExtend(xs, xs[..|xs| - 1], key, k, r);
      r
  }

  /** The last match in `xs` is the last match in its prefix when the final element does not match. */
  lemma LastWithKeyExtend<T>(xs: seq<T>, p: seq<T>, key: T -> string, k: string, r: Option<T>)
    requires xs != [] && p == xs[..|xs| - 1] && key(xs[|xs| - 1]) != k
    requires r.None? <==> forall i :: 0 <= i < |p| ==> key(p[i]) != k
    requires r.Some? ==> exists i :: 0 <= i < |p| && p[i] == r.value && key(p[i]) == k &&
                                     forall j :: i < j < |p| ==> key(p[j]) != k
    ensures r.None? <==> forall i :: 0 <= i < |xs| ==> key(xs[i]) != k
    ensures r.Some? ==> exists i :: 0 <= i < |xs| && xs[i] == r.value && key(xs[i]) == k &&
                                    forall j :: i < j < |xs| ==> key(xs[j]) != k
  {
    if r.Some? {
      var i :| 0 <= i < |p| && p[i] == r.value && key(p[i]) == k && forall j :: i < j < |p| ==> key(p[j]) != k;
      assert xs[i] == p[i];
      forall j | i < j < |xs| ensures key(xs[j]) != k {
        if j < |p| {
          assert xs[j] == p[j];
        }
      }
      assert !(forall i :: 0 <= i < |xs| ==> key(xs[i]) != k) by {
        assert key(xs[i]) == k;
      }
    } else {
      forall i | 0 <= i < |xs| ensures key(xs[i]) != k {
        if i < |p| {
          assert xs[i] == p[i];
        }
      }
    }
  }

  function Keys<T>(xs: seq<T>, key: T -> string): (r: seq<string>)
    ensures |r| == |xs| && forall i :: 0 <= i < |xs| ==> r[i] == key(xs[i])
  {
    if xs == [] then [] else [key(xs[0])] + Keys(xs[1..], key)
  }

  /** The distinct elements of `xs` in order of first occurrence (insertion order of a JS Map / Set). */
  function Dedup(xs: seq<string>): (r: seq<string>)
  {
    if xs == [] then []
    else
      var d := Dedup(xs[..|xs| - 1]);
      if xs[|xs| - 1] in d then d else d + [xs[|xs| - 1]]
  }

  lemma {:induction false} DedupProperties(xs: seq<string>)
    ensures forall y :: y in Dedup(xs) <==> y in xs
    ensures forall i, j :: 0 <= i < j < |Dedup(xs)| ==> Dedup(xs)[i] != Dedup(xs)[j]
  {
    if xs != [] {
      var p := xs[..|xs| - 1];
      DedupProperties(p);
      assert xs == p + [xs[|xs| - 1]];
    }
  }

  // ------------------------------------------------------------------
  // JavaScript String.prototype.split with a one-character separator
  // ------------------------------------------------------------------

  function Split(s: string, sep: char): (r: seq<string>)
    ensures |r| >= 1
  {
    if s == [] then [""]
    else if s[0] == sep then [""] + Split(s[1..], sep)
    else
      var t := Split(s[1..], sep);
      [[s[0]] + t[0]] + t[1..]
  }

  function Join(parts: seq<string>, sep: char): string
    requires |parts| >= 1
  {
    if |parts| == 1 then parts[0] else parts[0] + [sep] + Join(parts[1..], sep)
  }

  /** Splitting and re-joining with the same separator gives the text back. */
  lemma {:induction false} JoinSplit(s: string, sep: char)
    ensures Join(Split(s, sep), sep) == s
  {
    if s != [] {
      JoinSplit(s[1..], sep);
      var t := Split(s[1..], sep);
      if s[0] == sep {
        assert Split(s, sep)[1..] == t;
      } else {
        var r := Split(s, sep);
        assert r[1..] == t[1..];
        if |t| > 1 {
          assert Join(t, sep) == t[0] + [sep] + Join(t[1..], sep);
        }
      }
    }
  }

  /** No part of a split contains the separator. */
  lemma {:induction false} SplitPartsAvoidSep(s: string, sep: char)
    ensures forall k :: 0 <= k < |Split(s, sep)| ==> sep !in Split(s, sep)[k]
  {
    if s != [] {
      SplitPartsAvoidSep(s[1..], sep);
      var t := Split(s[1..], sep);
      if s[0] != sep {
        var r := Split(s, sep);
        forall k | 0 <= k < |r| ensures sep !in r[k] {
          if k > 0 { assert r[k] == t[k]; }
        }
      }
    }
  }

  /** Text without the separator splits into itself alone. */
  lemma {:induction false} SplitNoSep(s: string, sep: char)
    requires sep !in s
    ensures Split(s, sep) == [s]
  {
    if s != [] {
      SplitNoSep(s[1..], sep);
      assert [s[0]] + s[1..] == s;
    }
  }

  /** Splitting `a + [sep] + b` where `a` has no separator puts `a` first. */
  lemma {:induction false} SplitAt(a: string, sep: char, b: string)
    requires sep !in a
    ensures Split(a + [sep] + b, sep) == [a] + Split(b, sep)
  {
    if a == [] {
      assert a + [sep] + b == [sep] + b;
      assert ([sep] + b)[1..] == b;
    } else {
      SplitAt(a[1..], sep, b);
      assert (a + [sep] + b)[1..] == a[1..] + [sep] + b;
      assert [a[0]] + a[1..] == a;
    }
  }

  // ------------------------------------------------------------------
  // JavaScript String.prototype.trim
  // ------------------------------------------------------------------

  /** The characters `trim` removes (ECMAScript WhiteSpace and LineTerminator). */
  predicate IsSpace(c: char) {
    c == '\t' || c == '\n' || c == '\U{000B}' || c == '\U{000C}' || c == '\r' || c == ' ' ||
    c == '\U{00A0}' || c == '\U{1680}' || ('\U{2000}' <= c <= '\U{200A}') ||
    c == '\U{2028}' || c == '\U{2029}' || c == '\U{202F}' || c == '\U{205F}' ||
    c == '\U{3000}' || c == '\U{FEFF}'
  }

  function TrimStart(s: string): (r: string)
    ensures |r| <= |s| && r == s[|s| - |r|..]
    ensures r == [] || !IsSpace(r[0])
    ensures forall k :: 0 <= k < |s| - |r| ==> IsSpace(s[k])
  {
    if s != [] && IsSpace(s[0]) then TrimStart(s[1..]) else s
  }

  function TrimEnd(s: string): (r: string)
    ensures |r| <= |s| && r == s[..|r|]
    ensures r == [] || !IsSpace(r[|r| - 1])
    ensures forall k :: |r| <= k < |s| ==> IsSpace(s[k])
  {
    if s != [] && IsSpace(s[|s| - 1]) then TrimEnd(s[..|s| - 1]) else s
  }

  function Trim(s: string): string {
    TrimEnd(TrimStart(s))
  }

  lemma {:induction false} TrimStartEmptyIff(s: string)
    ensures TrimStart(s) == [] <==> forall k :: 0 <= k < |s| ==> IsSpace(s[k])
  {
    if s != [] && IsSpace(s[0]) {
      TrimStartEmptyIff(s[1..]);
      assert forall k :: 1 <= k < |s| ==> s[k] == s[1..][k - 1];
    }
  }

  lemma {:induction false} TrimEndEmptyIff(s: string)
    ensures TrimEnd(s) == [] <==> forall k :: 0 <= k < |s| ==> IsSpace(s[k])
  {
    if s != [] && IsSpace(s[|s| - 1]) {
      TrimEndEmptyIff(s[..|s| - 1]);
      assert forall k :: 0 <= k < |s| - 1 ==> s[k] == s[..|s| - 1][k];
    }
  }

  /** `trim()` is empty exactly when the text is all white space. */
  lemma TrimEmptyIff(s: string)
    ensures Trim(s) == [] <==> forall k :: 0 <= k < |s| ==> IsSpace(s[k])
  {
    TrimStartEmptyIff(s);
    TrimEndEmptyIff(TrimStart(s));
  }

  /** Text with no white space at either end. */
  predicate Trimmed(s: string) {
    s == [] || (!IsSpace(s[0]) && !IsSpace(s[|s| - 1]))
  }

  /** Trimmed text starts and ends with a visible character, so trimming it again changes nothing. */
  lemma TrimEnds(s: string)
    ensures Trimmed(Trim(s))
    ensures Trim(Trim(s)) == Trim(s)
  {
    var u := TrimStart(s);
    var t := TrimEnd(u);
    if t != [] {
      assert t[0] == u[0];
    }
    TrimNoSpace(t);
  }

  /** Every part of a list, trimmed, has no white space at either end. */
  lemma TrimEachEnds(parts: seq<string>)
    ensures forall k :: 0 <= k < |parts| ==> Trimmed(Trim(parts[k])) && Trim(Trim(parts[k])) == Trim(parts[k])
  {
    forall k | 0 <= k < |parts|
      ensures Trimmed(Trim(parts[k])) && Trim(Trim(parts[k])) == Trim(parts[k])
    {
      TrimEnds(parts[k]);
    }
  }

  /** Trimming text that starts and ends with a visible character changes nothing. */
  lemma TrimNoSpace(s: string)
    requires s == [] || (!IsSpace(s[0]) && !IsSpace(s[|s| - 1]))
    ensures Trim(s) == s
  {
  }

  // ------------------------------------------------------------------
  // Decimal printing and JavaScript parseInt / parseFloat
  // ------------------------------------------------------------------

  function DigitChar(d: nat): char
    requires d < 10
  {
    ['0', '1', '2', '3', '4', '5', '6', '7', '8', '9'][d]
  }

  predicate IsDigit(c: char) {
    '0' <= c <= '9'
  }

  function DigitValue(c: char): nat
    requires IsDigit(c)
  {
    (c as int) - ('0' as int)
  }

  /** `String(n)` for a non-negative integer: decimal digits without leading zeros. */
  function NatToString(n: nat): (r: string)
    ensures |r| >= 1 && forall k :: 0 <= k < |r| ==> IsDigit(r[k])
    decreases n
  {
    if n < 10 then [DigitChar(n)] else NatToString(n / 10) + [DigitChar(n % 10)]
  }

  /** `String(i)` for any integer (JavaScript and Python agree on this). */
  function IntToString(i: int): string {
    if i < 0 then "-" + NatToString(-i) else NatToString(i)
  }

  /** Python's `f"{n:02d}"` for a non-negative integer. */
  function Pad2(n: nat): string {
    if n < 10 then "0" + NatToString(n) else NatToString(n)
  }

  /** Value of a (possibly empty) run of decimal digits. */
  function DigitsValue(s: string): nat
    requires forall k :: 0 <= k < |s| ==> IsDigit(s[k])
  {
    if s == [] then 0 else DigitsValue(s[..|s| - 1]) * 10 + DigitValue(s[|s| - 1])
  }

  lemma {:induction false} DigitsValueOfNatToString(n: nat)
    ensures DigitsValue(NatToString(n)) == n
    decreases n
  {
    if n >= 10 {
      DigitsValueOfNatToString(n / 10);
      var s := NatToString(n);
      assert s[..|s| - 1] == NatToString(n / 10);
    }
  }

  /** Length of the longest prefix of `s` made of decimal digits. */
  function DigitRun(s: string): (n: nat)
    ensures n <= |s| && forall k :: 0 <= k < n ==> IsDigit(s[k])
    ensures n < |s| ==> !IsDigit(s[n])
  {
    if s != [] && IsDigit(s[0]) then 1 + DigitRun(s[1..]) else 0
  }

  predicate IsHexDigit(c: char) {
    IsDigit(c) || ('a' <= c <= 'f') || ('A' <= c <= 'F')
  }

  function HexDigitValue(c: char): nat
    requires IsHexDigit(c)
  {
    if IsDigit(c) then DigitValue(c)
    else if 'a' <= c <= 'f' then (c as int) - ('a' as int) + 10
    else (c as int) - ('A' as int) + 10
  }

  function HexRun(s: string): (n: nat)
    ensures n <= |s| && forall k :: 0 <= k < n ==> IsHexDigit(s[k])
  {
    if s != [] && IsHexDigit(s[0]) then 1 + HexRun(s[1..]) else 0
  }

  function HexValue(s: string): nat
    requires forall k :: 0 <= k < |s| ==> IsHexDigit(s[k])
  {
    if s == [] then 0 else HexValue(s[..|s| - 1]) * 16 + HexDigitValue(s[|s| - 1])
  }

  /** Magnitude read by `parseInt` after the sign: hexadecimal after `0x`, otherwise decimal. */
  function ParseMagnitude(s: string): Option<nat> {
    if |s| >= 2 && s[0] == '0' && (s[1] == 'x' || s[1] == 'X') then
      var n := HexRun(s[2..]);
      if n == 0 then None else Some(HexValue(s[2..][..n]))
    else
      var n := DigitRun(s);
      if n == 0 then None else Some(DigitsValue(s[..n]))
  }

  /** `parseInt(s)` with no radix; `None` stands for NaN. */
  function ParseInt(s: string): Option<int> {
    var t := TrimStart(s);
    if t != [] && t[0] == '-' then
      var m := ParseMagnitude(t[1..]);
      if m.None? then None else Some(-(m.value as int))
    else if t != [] && t[0] == '+' then
      ParseMagnitude(t[1..])
    else
      ParseMagnitude(t)
  }

  /** `parseInt` reads back what `Pad2` and `NatToString` print. */
  lemma ParseIntOfDigits(s: string)
    requires |s| >= 1 && forall k :: 0 <= k < |s| ==> IsDigit(s[k])
    requires !(|s| >= 2 && s[0] == '0' && (s[1] == 'x' || s[1] == 'X'))
    ensures ParseInt(s) == Some(DigitsValue(s))
  {
    assert TrimStart(s) == s;
    assert DigitRun(s) == |s| by { DigitRunAll(s); }
    assert s[..|s|] == s;
  }

  lemma {:induction false} DigitRunAll(s: string)
    requires forall k :: 0 <= k < |s| ==> IsDigit(s[k])
    ensures DigitRun(s) == |s|
  {
    if s != [] { DigitRunAll(s[1..]); }
  }

  lemma ParseIntPad2(n: nat)
    requires n < 100
    ensures ParseInt(Pad2(n)) == Some(n)
  {
    var s := Pad2(n);
    DigitsValueOfNatToString(n);
    if n < 10 {
      assert s == ['0', DigitChar(n)];
      assert s[..1] == "0";
      assert DigitsValue(s) == n;
    } else {
      assert s == NatToString(n);
      assert s[0] != '0' by {
        assert s == NatToString(n / 10) + [DigitChar(n % 10)];
        assert NatToString(n / 10) == [DigitChar(n / 10)];
      }
    }
    ParseIntOfDigits(s);
  }

  /** Length of the unsigned decimal literal `digits [. digits]` at the start of `s` (0 if none). */
  function DecimalRun(s: string): nat {
    var a := DigitRun(s);
    if a < |s| && s[a] == '.' then
      var b := DigitRun(s[a + 1..]);
      if a == 0 && b == 0 then 0 else a + 1 + b
    else a
  }

  /** Value of the text `digits [. digits]` as an exact rational. */
  function DecimalValue(s: string): real {
    var a := DigitRun(s);
    var whole := DigitsValue(s[..a]) as real;
    if a < |s| && s[a] == '.' then
      var frac := s[a + 1..][..DigitRun(s[a + 1..])];
      whole + (DigitsValue(frac) as real) / (Pow10(|frac|) as real)
    else whole
  }

  function Pow10(n: nat): (r: nat)
    ensures r >= 1
  {
    if n == 0 then 1 else 10 * Pow10(n - 1)
  }

  /** `parseFloat(s)` on decimal text (an exponent part and `Infinity` are not read); `None` is NaN. */
  function ParseFloat(s: string): Option<real> {
    var t := TrimStart(s);
    var neg := t != [] && t[0] == '-';
    var u := if t != [] && (t[0] == '-' || t[0] == '+') then t[1..] else t;
    var n := DecimalRun(u);
    if n == 0 then None
    else
      var v := DecimalValue(u[..n]);
      Some(if neg then -v else v)
  }

  /** `parseFloat` of an integer's decimal form gives that integer. */
  lemma ParseFloatOfNat(n: nat)
    ensures ParseFloat(NatToString(n)) == Some(n as real)
  {
    var s := NatToString(n);
    DigitsValueOfNatToString(n);
    ParseFloatOfDigits(s);
  }

  lemma ParseFloatOfDigits(s: string)
    requires |s| >= 1 && forall k :: 0 <= k < |s| ==> IsDigit(s[k])
    ensures ParseFloat(s) == Some(DigitsValue(s) as real)
  {
    assert !IsSpace(s[0]) && s[0] != '-' && s[0] != '+';
    assert TrimStart(s) == s;
    DigitRunAll(s);
    assert DecimalRun(s) == |s|;
    assert s[..|s|] == s;
    assert DecimalValue(s) == DigitsValue(s) as real;
  }
}
