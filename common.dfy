/** Shared vocabulary of the model: optional values, map lookups with a
    default, sums over sequences, the rounding rules the program uses, and
    the handful of string operations (trim, case mapping, substring search,
    ordering, de-duplication, sorting) that its pages and services share. */
module Common {

  datatype Option<T> = None | Some(value: T)

  // ---------------------------------------------------------------------
  // Numbers
  // ---------------------------------------------------------------------

  /** `row.get(key, 0)`: a missing key reads as 0. */
  function Get(m: map<string, real>, k: string): (r: real)
    ensures k !in m ==> r == 0.0
    ensures k in m ==> r == m[k]
  {
    if k in m then m[k] else 0.0
  }

  /** The first `n` of a descending sort hold the largest keys: nothing
      left out has a larger key than anything kept. */
  lemma TakeSortedLargest<T>(s: seq<T>, key: T -> real, n: nat)
    ensures multiset(Take(SortDesc(s, key), n)) <= multiset(s)
    ensures forall x, i :: x in multiset(s) - multiset(Take(SortDesc(s, key), n)) && 0 <= i < |Take(SortDesc(s, key), n)| ==>
      key(x) <= key(Take(SortDesc(s, key), n)[i])
  {
    var r := SortDesc(s, key);
    PrefixHoldsLargest(r, key, n);
  }

  /** The first n of a sorted sequence are its n largest. */
  lemma PrefixHoldsLargest<T>(r: seq<T>, key: T -> real, n: nat)
    requires SortedDesc(r, key)
    ensures multiset(Take(r, n)) <= multiset(r)
    ensures forall x, i :: x in multiset(r) - multiset(Take(r, n)) && 0 <= i < |Take(r, n)| ==>
      key(x) <= key(Take(r, n)[i])
  {
    var t := Take(r, n);
    if |r| > n {
      assert t == r[..n];
      assert r == t + r[n..];
      assert multiset(r) == multiset(t) + multiset(r[n..]);
      forall x, i | x in multiset(r) - multiset(t) && 0 <= i < |t|
        ensures key(x) <= key(t[i])
      {
        assert x in multiset(r[n..]);
        SuffixBelowPrefix(r, key, n, x, i);
      }
    } else {
      assert t == r;
      assert multiset(r) - multiset(t) == multiset{};
    }
  }

  /** A prefix of a sorted sequence is sorted. */
  lemma TakeSorted<T>(r: seq<T>, key: T -> real, n: nat)
    requires SortedDesc(r, key)
    ensures SortedDesc(Take(r, n), key)
  {
    var t := Take(r, n);
    forall i, j | 0 <= i < j < |t|
      ensures key(t[i]) >= key(t[j])
    {
      assert t[i] == r[i] && t[j] == r[j];
    }
  }

  /** In a sorted sequence, what lies past position n is below what
      lies before it. */
  lemma SuffixBelowPrefix<T>(r: seq<T>, key: T -> real, n: nat, x: T, i: nat)
    requires SortedDesc(r, key) && n <= |r| && x in multiset(r[n..]) && i < n
    ensures key(x) <= key(r[i])
  {
    var j :| 0 <= j < |r[n..]| && r[n..][j] == x;
    assert r[n + j] == x;
  }

  /** Sum of a sequence, accumulated from the left as `sum(...)` and
      `reduce((s, x) => s + x, 0)` do. */
  function Sum(s: seq<real>): real
  {
    if s == [] then 0.0 else Sum(s[..|s| - 1]) + s[|s| - 1]
  }

  lemma {:induction false} SumAppend(a: seq<real>, b: seq<real>)
    ensures Sum(a + b) == Sum(a) + Sum(b)
  {
    if b == [] {
      assert a + b == a;
    } else {
      assert (a + b)[..|a + b| - 1] == a + b[..|b| - 1];
      SumAppend(a, b[..|b| - 1]);
    }
  }

  lemma {:induction false} SumNonNegative(s: seq<real>)
    requires forall i :: 0 <= i < |s| ==> s[i] >= 0.0
    ensures Sum(s) >= 0.0
  {
    if s != [] {
      SumNonNegative(s[..|s| - 1]);
    }
  }

  /** Every element of a sequence of non-negative numbers is at most its sum. */
  lemma {:induction false} SumBoundsElement(s: seq<real>, k: nat)
    requires forall i :: 0 <= i < |s| ==> s[i] >= 0.0
    requires k < |s|
    ensures s[k] <= Sum(s)
  {
    var n := |s| - 1;
    SumNonNegative(s[..n]);
    if k < n {
      SumBoundsElement(s[..n], k);
    }
  }

  /** A sequence whose every element is `v` sums to `|s| * v`. */
  lemma {:induction false} SumConstant(s: seq<real>, v: real)
    requires forall i :: 0 <= i < |s| ==> s[i] == v
    ensures Sum(s) == |s| as real * v
  {
    if s != [] {
      SumConstant(s[..|s| - 1], v);
    }
  }

  /** The average of a non-empty constant sequence is that constant. */
  lemma ConstantAverage(s: seq<real>, v: real)
    requires |s| > 0 && forall i :: 0 <= i < |s| ==> s[i] == v
    ensures Sum(s) / |s| as real == v
  {
    SumConstant(s, v);
    var n := |s| as real;
    assert Sum(s) == n * v;
    assert (n * v) / n == v;
  }

  /** Sum of `f` over a sequence, accumulated from the left. */
  function SumBy<T>(s: seq<T>, f: T -> real): real
  {
    if s == [] then 0.0 else SumBy(s[..|s| - 1], f) + f(s[|s| - 1])
  }

  lemma {:induction false} SumByAppend<T>(a: seq<T>, b: seq<T>, f: T -> real)
    ensures SumBy(a + b, f) == SumBy(a, f) + SumBy(b, f)
  {
    if b == [] {
      assert a + b == a;
    } else {
      assert (a + b)[..|a + b| - 1] == a + b[..|b| - 1];
      SumByAppend(a, b[..|b| - 1], f);
    }
  }

  /** Reordering a sequence does not change its sum. */
  lemma {:induction false} SumByPermutation<T>(a: seq<T>, b: seq<T>, f: T -> real)
    requires multiset(a) == multiset(b)
    ensures SumBy(a, f) == SumBy(b, f)
    decreases |a|
  {
    if a == [] {
      assert |b| == |multiset(b)| == 0;
    } else {
      var n := |a| - 1;
      var x := a[n];
      assert a == a[..n] + [x];
      assert x in multiset(b);
      var k :| 0 <= k < |b| && b[k] == x;
      assert b == b[..k] + [x] + b[k + 1..];
      var rest := b[..k] + b[k + 1..];
      assert multiset(a[..n]) == multiset(rest) by {
        assert multiset(a) == multiset(a[..n]) + multiset{x};
        assert multiset(b) == multiset(b[..k]) + multiset{x} + multiset(b[k + 1..]);
        assert multiset(rest) == multiset(b[..k]) + multiset(b[k + 1..]);
        assert multiset(a[..n]) == multiset(a) - multiset{x};
        assert multiset(rest) == multiset(b) - multiset{x};
      }
      SumByPermutation(a[..n], rest, f);
      SumByAppend(b[..k] + [x], b[k + 1..], f);
      SumByAppend(b[..k], [x], f);
      SumByAppend(b[..k], b[k + 1..], f);
      assert SumBy([x], f) == f(x) by {
        assert [x][..0] == [];
      }
    }
  }

  lemma {:induction false} SumByNonNegative<T>(s: seq<T>, f: T -> real)
    requires forall i :: 0 <= i < |s| ==> f(s[i]) >= 0.0
    ensures SumBy(s, f) >= 0.0
  {
    if s != [] {
      SumByNonNegative(s[..|s| - 1], f);
    }
  }

  /** For non-negative terms, a prefix sums to at most the whole. */
  lemma SumByPrefix<T>(s: seq<T>, n: nat, f: T -> real)
    requires n <= |s|
    requires forall i :: 0 <= i < |s| ==> f(s[i]) >= 0.0
    ensures SumBy(s[..n], f) <= SumBy(s, f)
  {
    assert s == s[..n] + s[n..];
    SumByAppend(s[..n], s[n..], f);
    SumByNonNegative(s[n..], f);
  }

  /** JavaScript `Math.round`: the nearest integer, halves rounded up. */
  function RoundHalfUp(x: real): (r: int)
    ensures r as real - 0.5 <= x < r as real + 0.5
  {
    (x + 0.5).Floor
  }

  lemma RoundHalfUpMonotone(x: real, y: real)
    requires x <= y
    ensures RoundHalfUp(x) <= RoundHalfUp(y)
  {
  }

  /** `math.ceil`: the least integer not below `x`. */
  function Ceil(x: real): (r: int)
    ensures r as real - 1.0 < x <= r as real
  {
    if x.Floor as real == x then x.Floor else x.Floor + 1
  }

  lemma CeilMonotone(x: real, y: real)
    requires x <= y
    ensures Ceil(x) <= Ceil(y)
  {
  }

  /** `round(x, 2)`, on exact reals with halves rounded up. */
  function Round2(x: real): (r: real)
    ensures x - 0.005 < r <= x + 0.005
  {
    var y := x * 100.0;
    var k := RoundHalfUp(y);
    assert k as real - 0.5 <= y < k as real + 0.5;
    var r := k as real / 100.0;
    assert r * 100.0 == k as real;
    r
  }

  lemma Round2Monotone(x: real, y: real)
    requires x <= y
    ensures Round2(x) <= Round2(y)
  {
    RoundHalfUpMonotone(x * 100.0, y * 100.0);
  }

  function Max(a: real, b: real): (r: real)
    ensures r >= a && r >= b && (r == a || r == b)
  {
    if a >= b then a else b
  }

  function Min(a: real, b: real): (r: real)
    ensures r <= a && r <= b && (r == a || r == b)
  {
    if a <= b then a else b
  }

  // ---------------------------------------------------------------------
  // Sorting by a numeric key, descending and stable (Python's
  // `sort(key=..., reverse=True)`, JavaScript's `sort((a, b) => kb - ka)`)
  // ---------------------------------------------------------------------

  ghost predicate SortedDesc<T>(s: seq<T>, key: T -> real)
  {
    forall i, j :: 0 <= i < j < |s| ==> key(s[i]) >= key(s[j])
  }

  /** Inserts `x` after every element whose key is at least `key(x)`. */
  function InsertDesc<T>(s: seq<T>, x: T, key: T -> real): (r: seq<T>)
    requires SortedDesc(s, key)
    ensures SortedDesc(r, key)
    ensures multiset(r) == multiset(s) + multiset{x}
    ensures |r| == |s| + 1
  {
    if s == [] then [x]
    else if key(s[0]) >= key(x) then
      var tail := InsertDesc(s[1..], x, key);
      assert s == [s[0]] + s[1..];
      TailBelowHead(s, x, key, tail);
      ConsSortedDesc(s[0], tail, key);
      [s[0]] + tail
    else
      ConsSortedDesc(x, s, key);
      [x] + s
  }

  /** What is inserted behind a head at least as large stays below it. */
  lemma TailBelowHead<T>(s: seq<T>, x: T, key: T -> real, tail: seq<T>)
    requires s != [] && SortedDesc(s, key) && key(s[0]) >= key(x)
    requires multiset(tail) == multiset(s[1..]) + multiset{x}
    ensures forall k :: 0 <= k < |tail| ==> key(s[0]) >= key(tail[k])
  {
    forall k | 0 <= k < |tail|
      ensures key(s[0]) >= key(tail[k])
    {
      assert tail[k] in multiset(tail);
      if tail[k] != x {
        assert tail[k] in multiset(s[1..]);
        var j :| 0 <= j < |s[1..]| && s[1..][j] == tail[k];
        assert s[j + 1] == tail[k];
      }
    }
  }

  /** A head at least as large as everything in a sorted tail. */
  lemma ConsSortedDesc<T>(h: T, tail: seq<T>, key: T -> real)
    requires SortedDesc(tail, key)
    requires forall k :: 0 <= k < |tail| ==> key(h) >= key(tail[k])
    ensures SortedDesc([h] + tail, key)
  {
    var r := [h] + tail;
    forall i, j | 0 <= i < j < |r|
      ensures key(r[i]) >= key(r[j])
    {
      assert r[j] == tail[j - 1];
      if i > 0 {
        assert r[i] == tail[i - 1];
      }
    }
  }

  /** Stable insertion sort, largest key first. */
  function SortDesc<T>(s: seq<T>, key: T -> real): (r: seq<T>)
    ensures SortedDesc(r, key)
    ensures multiset(r) == multiset(s)
    ensures |r| == |s|
  {
    if s == [] then []
    else
      var n := |s| - 1;
      assert s == s[..n] + [s[n]];
      InsertDesc(SortDesc(s[..n], key), s[n], key)
  }

  /** Ascending sort of numbers (`sort((a, b) => a - b)`). */
  function SortAsc(s: seq<real>): (r: seq<real>)
    ensures forall i, j :: 0 <= i < j < |r| ==> r[i] <= r[j]
    ensures multiset(r) == multiset(s)
    ensures |r| == |s|
  {
    var r := SortDesc(s, x => -x);
    assert forall i, j :: 0 <= i < j < |r| ==> -r[i] >= -r[j];
    r
  }

  /** The first `n` elements, or all of them when there are fewer
      (`xs[:n]`, `xs.slice(0, n)`). */
  function Take<T>(s: seq<T>, n: nat): (r: seq<T>)
    ensures |r| == if |s| <= n then |s| else n
    ensures forall i :: 0 <= i < |r| ==> r[i] == s[i]
  {
    if |s| <= n then s else s[..n]
  }

  // ---------------------------------------------------------------------
  // Characters and strings (ASCII)
  // ---------------------------------------------------------------------

  predicate IsSpace(c: char)
  {
    c == ' ' || c == '\t' || c == '\n' || c == '\r' || c as int == 12 || c as int == 11
  }

  predicate IsUpper(c: char) { 'A' <= c <= 'Z' }
  predicate IsLower(c: char) { 'a' <= c <= 'z' }
  predicate IsLetter(c: char) { IsUpper(c) || IsLower(c) }
  predicate IsDigit(c: char) { '0' <= c <= '9' }

  function LowerChar(c: char): (r: char)
    ensures !IsUpper(r)
    ensures !IsUpper(c) ==> r == c
  {
    if IsUpper(c) then (c as int + 32) as char else c
  }

  function UpperChar(c: char): (r: char)
    ensures !IsLower(r)
    ensures !IsLower(c) ==> r == c
  {
    if IsLower(c) then (c as int - 32) as char else c
  }

  /** `s.lower()` / `s.toLowerCase()`. */
  function ToLower(s: string): (r: string)
    ensures |r| == |s|
    ensures forall i :: 0 <= i < |s| ==> r[i] == LowerChar(s[i])
  {
    seq(|s|, i requires 0 <= i < |s| => LowerChar(s[i]))
  }

  /** `s.upper()` / `s.toUpperCase()`. */
  function ToUpper(s: string): (r: string)
    ensures |r| == |s|
    ensures forall i :: 0 <= i < |s| ==> r[i] == UpperChar(s[i])
  {
    seq(|s|, i requires 0 <= i < |s| => UpperChar(s[i]))
  }

  /** Number of leading white-space characters. */
  function LeadingSpaces(s: string): (n: nat)
    ensures n <= |s|
    ensures forall i :: 0 <= i < n ==> IsSpace(s[i])
    ensures n < |s| ==> !IsSpace(s[n])
  {
    if s == [] || !IsSpace(s[0]) then 0 else 1 + LeadingSpaces(s[1..])
  }

  /** Number of trailing white-space characters. */
  function TrailingSpaces(s: string): (n: nat)
    ensures n <= |s|
    ensures forall i :: |s| - n <= i < |s| ==> IsSpace(s[i])
    ensures n < |s| ==> !IsSpace(s[|s| - 1 - n])
  {
    if s == [] || !IsSpace(s[|s| - 1]) then 0 else 1 + TrailingSpaces(s[..|s| - 1])
  }

  /** `s.strip()` / `s.trim()`: drops white space at both ends. */
  function Trim(s: string): (r: string)
    ensures r == [] || (!IsSpace(r[0]) && !IsSpace(r[|r| - 1]))
    ensures |r| <= |s|
  {
    var t := s[LeadingSpaces(s)..];
    t[..|t| - TrailingSpaces(t)]
  }

  /** A string without white space at its ends is its own trim. */
  lemma TrimNoop(s: string)
    requires s == [] || (!IsSpace(s[0]) && !IsSpace(s[|s| - 1]))
    ensures Trim(s) == s
  {
    assert LeadingSpaces(s) == 0;
    assert s[0..] == s;
  }

  lemma TrimIdempotent(s: string)
    ensures Trim(Trim(s)) == Trim(s)
  {
    TrimNoop(Trim(s));
  }

  predicate IsPrefix(p: string, s: string)
  {
    |p| <= |s| && s[..|p|] == p
  }

  /** `s.includes(sub)`: `sub` occurs in `s` at some position. */
  predicate Contains(s: string, sub: string)
    decreases |s|
  {
    IsPrefix(sub, s) || (s != [] && Contains(s[1..], sub))
  }

  lemma ContainsEmpty(s: string)
    ensures Contains(s, "")
  {
    assert IsPrefix("", s);
  }

  /** Every occurrence of character `c` replaced by `d`. */
  function ReplaceChar(s: string, c: char, d: char): (r: string)
    ensures |r| == |s|
    ensures forall i :: 0 <= i < |s| ==> r[i] == (if s[i] == c then d else s[i])
  {
    seq(|s|, i requires 0 <= i < |s| => if s[i] == c then d else s[i])
  }

  /** Every occurrence of character `c` removed. */
  function RemoveChar(s: string, c: char): (r: string)
    ensures c !in r
    ensures |r| <= |s|
    ensures forall x :: x in r <==> x in s && x != c
  {
    if s == [] then []
    else if s[|s| - 1] == c then RemoveChar(s[..|s| - 1], c)
    else
      var r := RemoveChar(s[..|s| - 1], c) + [s[|s| - 1]];
      assert forall x :: x in s <==> x in s[..|s| - 1] || x == s[|s| - 1] by {
        assert s == s[..|s| - 1] + [s[|s| - 1]];
      }
      r
  }

  /** Strict lexicographic order by character code (Python `<` on `str`,
      JavaScript's default `sort()`). */
  predicate Less(a: string, b: string)
  {
    if a == [] then b != []
    else if b == [] then false
    else if a[0] != b[0] then a[0] < b[0]
    else Less(a[1..], b[1..])
  }

  lemma {:induction false} LessIrreflexive(a: string)
    ensures !Less(a, a)
  {
    if a != [] {
      LessIrreflexive(a[1..]);
    }
  }

  lemma {:induction false} LessTransitive(a: string, b: string, c: string)
    requires Less(a, b) && Less(b, c)
    ensures Less(a, c)
  {
    if a != [] && b != [] && c != [] && a[0] == b[0] && b[0] == c[0] {
      LessTransitive(a[1..], b[1..], c[1..]);
    }
  }

  lemma {:induction false} LessTotal(a: string, b: string)
    ensures a == b || Less(a, b) || Less(b, a)
  {
    if a != [] && b != [] && a[0] == b[0] {
      LessTotal(a[1..], b[1..]);
      if a[1..] == b[1..] {
        assert a == [a[0]] + a[1..] && b == [b[0]] + b[1..];
      }
    }
  }

  lemma {:induction false} LessAsymmetric(a: string, b: string)
    requires Less(a, b)
    ensures !Less(b, a)
  {
    if a != [] && b != [] && a[0] == b[0] {
      LessAsymmetric(a[1..], b[1..]);
    }
  }

  ghost predicate Sorted(s: seq<string>)
  {
    forall i, j :: 0 <= i < j < |s| ==> !Less(s[j], s[i])
  }

  ghost predicate StrictlySorted(s: seq<string>)
  {
    forall i, j :: 0 <= i < j < |s| ==> Less(s[i], s[j])
  }

  ghost predicate NoDuplicates<T>(s: seq<T>)
  {
    forall i, j :: 0 <= i < j < |s| ==> s[i] != s[j]
  }

  function InsertString(s: seq<string>, x: string): (r: seq<string>)
    requires Sorted(s)
    ensures Sorted(r)
    ensures multiset(r) == multiset(s) + multiset{x}
  {
    if s == [] then [x]
    else if !Less(x, s[0]) then
      var tail := InsertString(s[1..], x);
      assert s == [s[0]] + s[1..];
      TailNotBelowHead(s, x, tail);
      ConsSorted(s[0], tail);
      [s[0]] + tail
    else
      BelowHeadBelowAll(s, x);
      ConsSorted(x, s);
      [x] + s
  }

  /** What is inserted behind a head not above it stays not below it. */
  lemma TailNotBelowHead(s: seq<string>, x: string, tail: seq<string>)
    requires s != [] && Sorted(s) && !Less(x, s[0])
    requires multiset(tail) == multiset(s[1..]) + multiset{x}
    ensures forall k :: 0 <= k < |tail| ==> !Less(tail[k], s[0])
  {
    forall k | 0 <= k < |tail|
      ensures !Less(tail[k], s[0])
    {
      assert tail[k] in multiset(tail);
      if tail[k] != x {
        assert tail[k] in multiset(s[1..]);
        var m :| 0 <= m < |s[1..]| && s[1..][m] == tail[k];
        assert s[m + 1] == tail[k];
      }
    }
  }

  /** A string below the head of a sorted sequence is below all of it. */
  lemma BelowHeadBelowAll(s: seq<string>, x: string)
    requires s != [] && Sorted(s) && Less(x, s[0])
    ensures forall k :: 0 <= k < |s| ==> !Less(s[k], x)
  {
    forall k | 0 <= k < |s|
      ensures !Less(s[k], x)
    {
      LessTotal(x, s[0]);
      LessAsymmetric(x, s[0]);
      if k > 0 && Less(s[k], x) {
        LessTransitive(s[k], x, s[0]);
      }
    }
  }

  /** A head not above anything in a sorted tail. */
  lemma ConsSorted(h: string, tail: seq<string>)
    requires Sorted(tail)
    requires forall k :: 0 <= k < |tail| ==> !Less(tail[k], h)
    ensures Sorted([h] + tail)
  {
    var r := [h] + tail;
    forall i, j | 0 <= i < j < |r|
      ensures !Less(r[j], r[i])
    {
      assert r[j] == tail[j - 1];
      if i > 0 {
        assert r[i] == tail[i - 1];
      }
    }
  }

  /** Insertion sort of strings (Python `sorted`, JavaScript `sort`). */
  function SortStrings(s: seq<string>): (r: seq<string>)
    ensures Sorted(r)
    ensures multiset(r) == multiset(s)
    ensures |r| == |s|
  {
    if s == [] then []
    else
      assert s == s[..|s| - 1] + [s[|s| - 1]];
      var r := InsertString(SortStrings(s[..|s| - 1]), s[|s| - 1]);
      assert |r| == |multiset(r)|;
      r
  }

  /** A sorted sequence without duplicates is strictly increasing. */
  lemma SortedDistinctIsStrict(s: seq<string>)
    requires Sorted(s) && NoDuplicates(s)
    ensures StrictlySorted(s)
  {
    forall i, j | 0 <= i < j < |s|
      ensures Less(s[i], s[j])
    {
      LessTotal(s[i], s[j]);
    }
  }

  lemma MultisetNoDuplicates<T>(a: seq<T>, b: seq<T>)
    requires multiset(a) == multiset(b) && NoDuplicates(a)
    ensures NoDuplicates(b)
  {
    forall i, j | 0 <= i < j < |b|
      ensures b[i] != b[j]
    {
      if b[i] == b[j] {
        assert b == b[..j] + [b[j]] + b[j + 1..];
        assert b[i] in b[..j];
        assert multiset(b)[b[i]] >= 2 by {
          assert multiset(b) == multiset(b[..j]) + multiset{b[j]} + multiset(b[j + 1..]);
        }
        DistinctCountAtMostOne(a, b[i]);
        assert false;
      }
    }
  }

  lemma {:induction false} DistinctCountAtMostOne<T>(a: seq<T>, x: T)
    requires NoDuplicates(a)
    ensures multiset(a)[x] <= 1
  {
    if a != [] {
      var n := |a| - 1;
      assert a == a[..n] + [a[n]];
      DistinctCountAtMostOne(a[..n], x);
      if a[n] == x {
        assert x !in a[..n];
        assert multiset(a[..n])[x] == 0;
      }
    }
  }

  /** `filter((name, idx, arr) => name && arr.indexOf(name) === idx)`:
      non-empty names, each kept at its first occurrence. */
  function KeepFirstNonEmpty(s: seq<string>): (r: seq<string>)
    ensures NoDuplicates(r)
    ensures forall x :: x in r <==> x in s && x != ""
  {
    if s == [] then []
    else
      var n := |s| - 1;
      var prev := KeepFirstNonEmpty(s[..n]);
      assert forall x :: x in s <==> x in s[..n] || x == s[n] by {
        assert s == s[..n] + [s[n]];
      }
      if s[n] != "" && s[n] !in s[..n] then prev + [s[n]] else prev
  }

  /** A sorted permutation of a duplicate-free list is strictly sorted
      and has the same elements. */
  lemma SortedOfDistinct(d: seq<string>, r: seq<string>)
    requires NoDuplicates(d) && Sorted(r) && multiset(r) == multiset(d)
    ensures StrictlySorted(r)
    ensures forall x :: x in r <==> x in d
  {
    MultisetNoDuplicates(d, r);
    SortedDistinctIsStrict(r);
    assert forall x :: x in r <==> x in multiset(r);
    assert forall x :: x in d <==> x in multiset(d);
  }

  /** The elements of `s` as a duplicate-free, increasing sequence:
      `sorted(set(s))` and `Array.from(new Set(s)).sort()`. */
  function SortedUnique(s: seq<string>): (r: seq<string>)
    ensures StrictlySorted(r)
    ensures forall x :: x in r <==> x in s
  {
    var d := Dedupe(s);
    var r := SortStrings(d);
    SortedOfDistinct(d, r);
    r
  }

  /** Elements of `s` in first-occurrence order, without repeats. */
  function Dedupe(s: seq<string>): (r: seq<string>)
    ensures NoDuplicates(r)
    ensures forall x :: x in r <==> x in s
  {
    if s == [] then []
    else
      var n := |s| - 1;
      var prev := Dedupe(s[..n]);
      assert forall x :: x in s <==> x in s[..n] || x == s[n] by {
        assert s == s[..n] + [s[n]];
      }
      if s[n] in prev then prev else prev + [s[n]]
  }

  /** The set of the defined values of `f` over `xs`: a loop that adds
      `f(x)` to a set whenever it is defined. */
  function Collect<T, U>(xs: seq<T>, f: T -> Option<U>): set<U>
  {
    if xs == [] then {}
    else
      var n := |xs| - 1;
      var prev := Collect(xs[..n], f);
      if f(xs[n]).Some? then prev + {f(xs[n]).value} else prev
  }

  lemma {:induction false} CollectMembers<T, U>(xs: seq<T>, f: T -> Option<U>)
    ensures forall y :: y in Collect(xs, f) <==> exists i :: 0 <= i < |xs| && f(xs[i]) == Some(y)
  {
    if xs != [] {
      var n := |xs| - 1;
      var p := xs[..n];
      CollectMembers(p, f);
      forall y
        ensures y in Collect(xs, f) <==> exists i :: 0 <= i < |xs| && f(xs[i]) == Some(y)
      {
        if y in Collect(p, f) {
          var i :| 0 <= i < |p| && f(p[i]) == Some(y);
          assert xs[i] == p[i];
        }
        if exists i :: 0 <= i < |xs| && f(xs[i]) == Some(y) {
          var i :| 0 <= i < |xs| && f(xs[i]) == Some(y);
          if i < n {
            assert p[i] == xs[i];
          }
        }
      }
    }
  }

  /** `xs.filter(p)`: the elements satisfying `p`, in order. */
  function Filter<T>(xs: seq<T>, p: T -> bool): (r: seq<T>)
    ensures |r| <= |xs|
    ensures forall i :: 0 <= i < |r| ==> p(r[i])
  {
    if xs == [] then []
    else
      var n := |xs| - 1;
      if p(xs[n]) then Filter(xs[..n], p) + [xs[n]] else Filter(xs[..n], p)
  }

  lemma {:induction false} FilterMembers<T>(xs: seq<T>, p: T -> bool)
    ensures forall x :: x in Filter(xs, p) <==> x in xs && p(x)
  {
    if xs != [] {
      var n := |xs| - 1;
      FilterMembers(xs[..n], p);
      assert xs == xs[..n] + [xs[n]];
    }
  }

  /** A filter every element passes keeps the whole sequence. */
  lemma {:induction false} FilterAll<T>(xs: seq<T>, p: T -> bool)
    requires forall i :: 0 <= i < |xs| ==> p(xs[i])
    ensures Filter(xs, p) == xs
  {
    if xs != [] {
      var n := |xs| - 1;
      FilterAll(xs[..n], p);
      assert xs == xs[..n] + [xs[n]];
    }
  }

  /** The defined values of `f` over `xs`, in order (a filter then a map). */
  function FilterMap<T, U>(xs: seq<T>, f: T -> Option<U>): (r: seq<U>)
    ensures |r| <= |xs|
  {
    if xs == [] then []
    else
      var n := |xs| - 1;
      if f(xs[n]).Some? then FilterMap(xs[..n], f) + [f(xs[n]).value] else FilterMap(xs[..n], f)
  }

  lemma {:induction false} FilterMapMembers<T, U>(xs: seq<T>, f: T -> Option<U>)
    ensures forall y :: y in FilterMap(xs, f) <==> exists i :: 0 <= i < |xs| && f(xs[i]) == Some(y)
  {
    if xs != [] {
      var n := |xs| - 1;
      var p := xs[..n];
      FilterMapMembers(p, f);
      forall y
        ensures y in FilterMap(xs, f) <==> exists i :: 0 <= i < |xs| && f(xs[i]) == Some(y)
      {
        if y in FilterMap(p, f) {
          var i :| 0 <= i < |p| && f(p[i]) == Some(y);
          assert xs[i] == p[i];
        }
        if exists i :: 0 <= i < |xs| && f(xs[i]) == Some(y) {
          var i :| 0 <= i < |xs| && f(xs[i]) == Some(y);
          if i < n {
            assert p[i] == xs[i];
          }
        }
      }
    }
  }

  /** `xs.findIndex(p)`: the first index satisfying `p`, None when no
      element does. */
  function FindIndex<T>(xs: seq<T>, p: T -> bool): (r: Option<nat>)
    ensures r.Some? ==> r.value < |xs| && p(xs[r.value]) && forall j :: 0 <= j < r.value ==> !p(xs[j])
    ensures r.None? ==> forall j :: 0 <= j < |xs| ==> !p(xs[j])
  {
    if xs == [] then None
    else if p(xs[0]) then Some(0)
    else
      match FindIndex(xs[1..], p)
      case None => None
      case Some(i) => Some(i + 1)
  }

  /** `sorted(some_set)`: the elements of a set in increasing order. */
  method SortedOfSet(s: set<string>) returns (r: seq<string>)
    ensures StrictlySorted(r)
    ensures forall x :: x in r <==> x in s
  {
    var rest := s;
    var xs: seq<string> := [];
    while rest != {}
      invariant rest <= s
      invariant forall x :: x in s <==> x in rest || x in xs
      decreases |rest|
    {
      var x :| x in rest;
      xs := xs + [x];
      rest := rest - {x};
    }
    r := SortedUnique(xs);
  }

  /** Two strictly increasing sequences with the same elements are equal:
      `sorted(set(xs))` does not depend on the set's iteration order. */
  lemma {:induction false} StrictlySortedUnique(a: seq<string>, b: seq<string>)
    requires StrictlySorted(a) && StrictlySorted(b)
    requires forall x :: x in a <==> x in b
    ensures a == b
  {
    if a != [] { assert a[0] in b; }
    if b != [] { assert b[0] in a; }
    if a != [] && b != [] {
      // The first elements are the least of the common set, hence equal.
      assert a[0] in b;
      assert b[0] in a;
      var i :| 0 <= i < |b| && b[i] == a[0];
      var j :| 0 <= j < |a| && a[j] == b[0];
      if i != 0 {
        assert Less(b[0], a[0]);
        if j == 0 {
          LessIrreflexive(a[0]);
          assert false;
        }
        assert Less(a[0], a[j]);
        LessAsymmetric(b[0], a[0]);
        assert false;
      }
      forall x
        ensures x in a[1..] <==> x in b[1..]
      {
        if x in a[1..] {
          var k :| 0 <= k < |a[1..]| && a[1..][k] == x;
          assert Less(a[0], x);
          LessIrreflexive(x);
          assert x in b;
        }
        if x in b[1..] {
          var k :| 0 <= k < |b[1..]| && b[1..][k] == x;
          assert Less(b[0], x);
          LessIrreflexive(x);
          assert x in a;
        }
      }
      StrictlySortedUnique(a[1..], b[1..]);
      assert a == [a[0]] + a[1..] && b == [b[0]] + b[1..];
    }
  }
}
