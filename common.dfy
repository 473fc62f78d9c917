/** Helpers shared by every part of the model: optional values, the string
    operations the Python and JavaScript sources call (`replace`, `lower`,
    `endswith`, `in`, `trim`), list filtering and the stable sort that both
    Python's `list.sort` and JavaScript's `Array.prototype.sort` perform. */
module Common {

  datatype Option<+T> = None | Some(value: T)

  /** `x || fallback` on an optional string: JavaScript and Python both treat
      the empty string like a missing one. */
  predicate TruthyText(s: Option<string>) {
    s.Some? && s.value != ""
  }

  function Min(a: int, b: int): int { if a <= b then a else b }

  function Max(a: int, b: int): int { if a <= b then b else a }

  // ---------------------------------------------------------------------
  // Characters and case

  /** ASCII lower-casing, the only case mapping the model uses. */
  function LowerChar(c: char): (r: char)
    ensures ('A' <= c <= 'Z') ==> r as int == c as int + 32
    ensures !('A' <= c <= 'Z') ==> r == c
  {
    if 'A' <= c <= 'Z' then (c as int + 32) as char else c
  }

  function Lower(s: string): (r: string)
    ensures |r| == |s|
    ensures forall i :: 0 <= i < |s| ==> r[i] == LowerChar(s[i])
  {
    seq(|s|, i requires 0 <= i < |s| => LowerChar(s[i]))
  }

  lemma LowerSlice(s: string, i: nat)
    requires i <= |s|
    ensures Lower(s[i..]) == Lower(s)[i..]
  {
  }

  lemma LowerEndsWith(s: string, t: string)
    requires EndsWith(s, t)
    ensures EndsWith(Lower(s), Lower(t))
  {
    var j := |s| - |t|;
    LowerSlice(s, j);
    assert s[j..] == t;
    assert |Lower(s)| - |Lower(t)| == j;
  }

  lemma LowerConcat(a: string, b: string)
    ensures Lower(a + b) == Lower(a) + Lower(b)
  {
  }

  // ---------------------------------------------------------------------
  // `str.replace` with one-character patterns

  /** `s.replace(c, "")`: every occurrence of `c` is dropped, nothing else. */
  function Remove(s: string, c: char): (r: string)
    ensures c !in r
    ensures |r| <= |s|
    ensures forall d :: d in r <==> d in s && d != c
    ensures c !in s ==> r == s
  {
    if s == [] then []
    else (if s[0] == c then [] else [s[0]]) + Remove(s[1..], c)
  }

  /** `s.replace(a, b)` with single characters: each `a` becomes `b`. */
  function Replace(s: string, a: char, b: char): (r: string)
    ensures |r| == |s|
    ensures forall i :: 0 <= i < |s| ==> r[i] == (if s[i] == a then b else s[i])
  {
    seq(|s|, i requires 0 <= i < |s| => if s[i] == a then b else s[i])
  }

  lemma ReplaceAbsent(s: string, a: char, b: char)
    requires a != b
    ensures a !in Replace(s, a, b)
  {
  }

  lemma ReplaceKeeps(s: string, a: char, b: char, d: char)
    requires d != b && d !in s
    ensures d !in Replace(s, a, b)
  {
  }

  lemma ReplaceIdentity(s: string, a: char, b: char)
    requires a !in s
    ensures Replace(s, a, b) == s
  {
  }

  // ---------------------------------------------------------------------
  // Prefixes, suffixes and substrings

  predicate StartsWith(s: string, prefix: string) {
    |prefix| <= |s| && s[..|prefix|] == prefix
  }

  predicate EndsWith(s: string, suffix: string) {
    |suffix| <= |s| && s[|s| - |suffix|..] == suffix
  }

  predicate EndsWithAny(s: string, suffixes: seq<string>) {
    exists k :: 0 <= k < |suffixes| && EndsWith(s, suffixes[k])
  }

  /** Ending with one entry of a list means ending with one of the list,
      and of any longer list that starts with it. */
  lemma EndsWithAnyAppend(s: string, a: seq<string>, b: seq<string>, k: nat)
    requires k < |a| && EndsWith(s, a[k])
    ensures EndsWithAny(s, a) && EndsWithAny(s, a + b)
  {
    assert (a + b)[k] == a[k];
  }

  /** Python's `needle in hay` and JavaScript's `hay.includes(needle)`. */
  predicate IsSubstring(needle: string, hay: string)
    decreases |hay|
  {
    StartsWith(hay, needle) || (|hay| > 0 && IsSubstring(needle, hay[1..]))
  }

  lemma IsSubstringAt(needle: string, hay: string, i: nat)
    requires i + |needle| <= |hay| && hay[i..i + |needle|] == needle
    ensures IsSubstring(needle, hay)
    decreases i
  {
    if i > 0 {
      IsSubstringAt(needle, hay[1..], i - 1);
      assert hay[1..][i - 1..i - 1 + |needle|] == hay[i..i + |needle|];
    }
  }

  /** Index of the last occurrence of `c` in `s`, or -1 (`str.rfind`). */
  function LastIndexOf(s: string, c: char): (r: int)
    ensures -1 <= r < |s|
    ensures r >= 0 ==> s[r] == c
    ensures forall j :: r < j < |s| ==> s[j] != c
  {
    if s == [] then -1
    else if s[|s| - 1] == c then |s| - 1
    else LastIndexOf(s[..|s| - 1], c)
  }

  // ---------------------------------------------------------------------
  // Whitespace, as JavaScript's `String.prototype.trim` defines it

  predicate IsJsSpace(c: char) {
    c == ' ' || c == '\t' || c == '\n' || c == '\r' || c == '\U{000B}' || c == '\U{000C}'
    || c == '\U{00A0}' || c == '\U{1680}' || ('\U{2000}' <= c <= '\U{200A}')
    || c == '\U{2028}' || c == '\U{2029}' || c == '\U{202F}' || c == '\U{205F}'
    || c == '\U{3000}' || c == '\U{FEFF}'
  }

  function TrimStart(s: string): string
  {
    if s != [] && IsJsSpace(s[0]) then TrimStart(s[1..]) else s
  }

  function TrimEnd(s: string): string
  {
    if s != [] && IsJsSpace(s[|s| - 1]) then TrimEnd(s[..|s| - 1]) else s
  }

  /** `s.trim()`: the longest middle part with no white space at either end. */
  function Trim(s: string): string
  {
    TrimEnd(TrimStart(s))
  }

  /** `trimStart` drops a prefix made of white space only. */
  lemma {:induction false} TrimStartShape(s: string)
    ensures var r := TrimStart(s);
      && |r| <= |s| && r == s[|s| - |r|..]
      && (r != [] ==> !IsJsSpace(r[0]))
      && forall i :: 0 <= i < |s| - |r| ==> IsJsSpace(s[i])
  {
    if s != [] && IsJsSpace(s[0]) {
      TrimStartShape(s[1..]);
      var r := TrimStart(s);
      forall i | 0 <= i < |s| - |r| ensures IsJsSpace(s[i]) {
        if i > 0 {
          assert s[i] == s[1..][i - 1];
        }
      }
    }
  }

  /** `trimEnd` drops a suffix made of white space only. */
  lemma {:induction false} TrimEndShape(s: string)
    ensures var r := TrimEnd(s);
      && |r| <= |s| && r == s[..|r|]
      && (r != [] ==> !IsJsSpace(r[|r| - 1]))
      && forall i :: |r| <= i < |s| ==> IsJsSpace(s[i])
  {
    if s != [] && IsJsSpace(s[|s| - 1]) {
      TrimEndShape(s[..|s| - 1]);
      var r := TrimEnd(s);
      forall i | |r| <= i < |s| ensures IsJsSpace(s[i]) {
        if i < |s| - 1 {
          assert s[i] == s[..|s| - 1][i];
        }
      }
    }
  }

  /** The trimmed string is a middle part of the input with no white space
      at either end. */
  lemma TrimShape(s: string)
    ensures Trim(s) != [] ==> !IsJsSpace(Trim(s)[0]) && !IsJsSpace(Trim(s)[|Trim(s)| - 1])
    ensures |TrimStart(s)| <= |s| && |s| - |TrimStart(s)| + |Trim(s)| <= |s|
    ensures Trim(s) == s[|s| - |TrimStart(s)|..|s| - |TrimStart(s)| + |Trim(s)|]
  {
    var a := TrimStart(s);
    var r := TrimEnd(a);
    TrimStartShape(s);
    TrimEndShape(a);
    var i := |s| - |a|;
    assert r == s[i..i + |r|];
  }

  lemma TrimIdempotent(s: string)
    ensures Trim(Trim(s)) == Trim(s)
  {
    TrimShape(s);
  }

  // ---------------------------------------------------------------------
  // Decimal rendering of a count, as template strings print numbers

  function DigitChar(d: nat): (c: char)
    requires d < 10
    ensures '0' <= c <= '9'
  {
    ['0', '1', '2', '3', '4', '5', '6', '7', '8', '9'][d]
  }

  function NatToString(n: nat): (r: string)
    ensures |r| >= 1
    ensures forall c :: c in r ==> '0' <= c <= '9'
    ensures n >= 10 ==> r[0] != '0'
    decreases n
  {
    if n < 10 then [DigitChar(n)] else NatToString(n / 10) + [DigitChar(n % 10)]
  }

  // ---------------------------------------------------------------------
  // Lists

  /** `list[:n]` / `array.slice(0, n)`. */
  function Take<T>(s: seq<T>, n: nat): (r: seq<T>)
    ensures |r| == Min(|s|, n)
    ensures r == s[..|r|]
  {
    if |s| <= n then s else s[..n]
  }

  lemma TakeAll<T>(s: seq<T>, n: nat)
    requires |s| <= n
    ensures Take(s, n) == s
  {
  }

  /** `[x for x in s if p(x)]` / `s.filter(p)`. */
  function Filter<T>(s: seq<T>, p: T -> bool): (r: seq<T>)
    ensures |r| <= |s|
    ensures forall x :: x in r ==> x in s && p(x)
    ensures forall x :: x in s && p(x) ==> x in r
  {
    if s == [] then [] else (if p(s[0]) then [s[0]] else []) + Filter(s[1..], p)
  }

  lemma {:induction false} FilterConcat<T>(a: seq<T>, b: seq<T>, p: T -> bool)
    ensures Filter(a + b, p) == Filter(a, p) + Filter(b, p)
  {
    if a != [] {
      var h := if p(a[0]) then [a[0]] else [];
      assert Filter(a + b, p) == h + Filter(a[1..] + b, p) by {
        assert (a + b)[0] == a[0] && (a + b)[1..] == a[1..] + b;
      }
      FilterConcat(a[1..], b, p);
      assert h + (Filter(a[1..], p) + Filter(b, p)) == (h + Filter(a[1..], p)) + Filter(b, p);
    } else {
      assert a + b == b;
    }
  }

  /** One more element extends the filtered list by that element exactly
      when it passes. */
  lemma FilterSnoc<T>(s: seq<T>, k: nat, p: T -> bool)
    requires k < |s|
    ensures p(s[k]) ==> Filter(s[..k + 1], p) == Filter(s[..k], p) + [s[k]]
    ensures !p(s[k]) ==> Filter(s[..k + 1], p) == Filter(s[..k], p)
  {
    assert s[..k + 1] == s[..k] + [s[k]];
    FilterConcat(s[..k], [s[k]], p);
    assert Filter([s[k]], p) == (if p(s[k]) then [s[k]] else []) + Filter([], p);
  }

  /** The filtered list of a non-empty list is that of all but its last
      element, extended by the last element when it passes. */
  lemma FilterLast<T>(s: seq<T>, p: T -> bool)
    requires s != []
    ensures Filter(s, p) == Filter(s[..|s| - 1], p) + (if p(s[|s| - 1]) then [s[|s| - 1]] else [])
  {
    FilterSnoc(s, |s| - 1, p);
    assert s[..|s|] == s;
  }

  lemma {:induction false} FilterAll<T>(s: seq<T>, p: T -> bool)
    requires forall x :: x in s ==> p(x)
    ensures Filter(s, p) == s
  {
    if s != [] {
      FilterAll(s[1..], p);
    }
  }

  lemma {:induction false} FilterNone<T>(s: seq<T>, p: T -> bool)
    requires forall x :: x in s ==> !p(x)
    ensures Filter(s, p) == []
  {
    if s != [] {
      FilterNone(s[1..], p);
    }
  }

  lemma {:induction false} FilterMultiset<T>(s: seq<T>, p: T -> bool)
    ensures multiset(Filter(s, p)) <= multiset(s)
  {
    if s != [] {
      FilterMultiset(s[1..], p);
      assert s == [s[0]] + s[1..];
    }
  }

  /** Filtering keeps every copy of an element that passes and no copy of
      one that does not. */
  lemma {:induction false} FilterMultisetExact<T>(s: seq<T>, p: T -> bool, x: T)
    ensures multiset(Filter(s, p))[x] == if p(x) then multiset(s)[x] else 0
  {
    if s != [] {
      FilterMultisetExact(s[1..], p, x);
      assert s == [s[0]] + s[1..];
    }
  }

  /** The first element kept by a filter is the first element of the
      sequence that passes. */
  lemma {:induction false} FilterFirst<T>(s: seq<T>, p: T -> bool) returns (i: nat)
    requires Filter(s, p) != []
    ensures i < |s| && s[i] == Filter(s, p)[0] && p(s[i])
    ensures forall j :: 0 <= j < i ==> !p(s[j])
  {
    if p(s[0]) {
      i := 0;
    } else {
      var k := FilterFirst(s[1..], p);
      i := k + 1;
    }
  }

  lemma MultisetEqual<T>(m1: multiset<T>, m2: multiset<T>)
    requires forall x :: m1[x] == m2[x]
    ensures m1 == m2
  {
  }

  /** Two permutations of each other keep equally many elements. */
  lemma FilterPermutation<T>(a: seq<T>, b: seq<T>, p: T -> bool)
    requires multiset(a) == multiset(b)
    ensures |Filter(a, p)| == |Filter(b, p)|
  {
    forall x ensures multiset(Filter(a, p))[x] == multiset(Filter(b, p))[x] {
      FilterMultisetExact(a, p, x);
      FilterMultisetExact(b, p, x);
    }
    MultisetEqual(multiset(Filter(a, p)), multiset(Filter(b, p)));
    assert |Filter(a, p)| == |multiset(Filter(a, p))|;
  }

  /** Count of the elements of `s` satisfying `p`. */
  function Count<T>(s: seq<T>, p: T -> bool): nat
  {
    |Filter(s, p)|
  }

  /** The concatenation of `g(x)` over the elements of `s`, in order. */
  function FlatMap<T, U>(s: seq<T>, g: T -> seq<U>): seq<U>
  {
    if s == [] then [] else FlatMap(s[..|s| - 1], g) + g(s[|s| - 1])
  }

  /** When every selected element maps to exactly one value and every other
      element to none, the map has one value per selected element. */
  lemma {:induction false} FlatMapCount<T, U>(s: seq<T>, g: T -> seq<U>, p: T -> bool)
    requires forall x :: |g(x)| == (if p(x) then 1 else 0)
    ensures |FlatMap(s, g)| == |Filter(s, p)|
  {
    if s != [] {
      var init, last := s[..|s| - 1], s[|s| - 1];
      FlatMapCount(init, g, p);
      assert s == init + [last];
      FilterConcat(init, [last], p);
      assert |Filter([last], p)| == |g(last)| by {
        assert Filter([last], p) == (if p(last) then [last] else []) + Filter([], p);
      }
    }
  }

  /** `FlatMap` over the elements `x` of `s` with `p(x) == want` only. */
  function FlatMapWhere<T, U>(s: seq<T>, g: T -> seq<U>, p: T -> bool, want: bool): seq<U>
  {
    if s == [] then []
    else FlatMapWhere(s[..|s| - 1], g, p, want) + (if p(s[|s| - 1]) == want then g(s[|s| - 1]) else [])
  }

  /** One more element extends the selective map by that element's image
      when it is selected, and by nothing otherwise. */
  lemma FlatMapWhereSnoc<T, U>(s: seq<T>, g: T -> seq<U>, p: T -> bool, k: nat)
    requires k < |s|
    ensures FlatMapWhere(s[..k + 1], g, p, true)
         == FlatMapWhere(s[..k], g, p, true) + (if p(s[k]) then g(s[k]) else [])
    ensures FlatMapWhere(s[..k + 1], g, p, false)
         == FlatMapWhere(s[..k], g, p, false) + (if p(s[k]) then [] else g(s[k]))
  {
    assert s[..k + 1][..k] == s[..k];
  }

  lemma {:induction false} FlatMapConcat<T, U>(a: seq<T>, b: seq<T>, g: T -> seq<U>)
    ensures FlatMap(a + b, g) == FlatMap(a, g) + FlatMap(b, g)
    decreases |b|
  {
    if b == [] {
      assert a + b == a;
    } else {
      var b' := b[..|b| - 1];
      FlatMapConcat(a, b', g);
      assert (a + b)[..|a + b| - 1] == a + b';
      assert (a + b)[|a + b| - 1] == b[|b| - 1];
    }
  }

  lemma {:induction false} FlatMapWhereAll<T, U>(s: seq<T>, g: T -> seq<U>, p: T -> bool)
    requires forall k :: 0 <= k < |s| ==> p(s[k])
    ensures FlatMap(s, g) == FlatMapWhere(s, g, p, true)
    ensures FlatMapWhere(s, g, p, false) == []
  {
    if s != [] {
      FlatMapWhereAll(s[..|s| - 1], g, p);
    }
  }

  /** When every `p`-element precedes every other element, mapping the
      `p`-elements first and the rest second gives the plain in-order map. */
  lemma {:induction false} FlatMapSplit<T, U>(s: seq<T>, g: T -> seq<U>, p: T -> bool)
    requires forall i, j :: 0 <= i < j < |s| && p(s[j]) ==> p(s[i])
    ensures FlatMap(s, g) == FlatMapWhere(s, g, p, true) + FlatMapWhere(s, g, p, false)
  {
    if s != [] {
      var last := s[|s| - 1];
      if p(last) {
        FlatMapWhereAll(s, g, p);
      } else {
        FlatMapSplit(s[..|s| - 1], g, p);
      }
    }
  }

  /** Mapping a prefix and then a `p`-first batch, `p`-elements of the batch
      first, gives the in-order map of the whole. */
  lemma FlatMapAppendSplit<T, U>(prefix: seq<T>, batch: seq<T>, g: T -> seq<U>, p: T -> bool)
    requires forall i, j :: 0 <= i < j < |batch| && p(batch[j]) ==> p(batch[i])
    ensures FlatMap(prefix + batch, g)
         == FlatMap(prefix, g) + FlatMapWhere(batch, g, p, true) + FlatMapWhere(batch, g, p, false)
  {
    FlatMapSplit(batch, g, p);
    FlatMapConcat(prefix, batch, g);
  }

  // ---------------------------------------------------------------------
  // Stable sorting by a numeric key, ascending.
  //
  // Python's `list.sort(key=k)` and JavaScript's `Array.prototype.sort` are
  // both stable.  A descending Python sort (`reverse=True`) also keeps equal
  // elements in their original order, so it is the ascending stable sort by
  // the negated key.

  ghost predicate SortedBy<T>(s: seq<T>, key: T -> real) {
    forall i, j :: 0 <= i < j < |s| ==> key(s[i]) <= key(s[j])
  }

  function InsertBy<T>(x: T, s: seq<T>, key: T -> real): (r: seq<T>)
    requires SortedBy(s, key)
    ensures SortedBy(r, key)
    ensures multiset(r) == multiset(s) + multiset{x}
    ensures |r| == |s| + 1
  {
    if s == [] then [x]
    else if key(x) <= key(s[0]) then
      SortedBelowHead(x, s, key);
      [x] + s
    else
      SortedBySlice(s, key, 1, |s|);
      var rest := InsertBy(x, s[1..], key);
      InsertedBehindHead(x, s, rest, key);
      [s[0]] + rest
  }

  /** A sorted list stays sorted under a new head no greater than its first
      element. */
  lemma SortedBelowHead<T>(x: T, s: seq<T>, key: T -> real)
    requires SortedBy(s, key) && s != [] && key(x) <= key(s[0])
    ensures SortedBy([x] + s, key)
  {
    forall y | y in s ensures key(x) <= key(y) {
      var k :| 0 <= k < |s| && s[k] == y;
      assert key(s[0]) <= key(s[k]) || k == 0;
    }
    ConsSorted(x, s, key);
  }

  /** When `x` goes behind the head of `s`, the head followed by `x`
      inserted into the tail is sorted and holds `x` and the elements of
      `s`. */
  lemma InsertedBehindHead<T>(x: T, s: seq<T>, rest: seq<T>, key: T -> real)
    requires SortedBy(s, key) && s != [] && key(s[0]) < key(x)
    requires SortedBy(rest, key) && multiset(rest) == multiset(s[1..]) + multiset{x}
    ensures SortedBy([s[0]] + rest, key)
    ensures multiset([s[0]] + rest) == multiset(s) + multiset{x}
  {
    assert multiset(s) == multiset{s[0]} + multiset(s[1..]) by { assert s == [s[0]] + s[1..]; }
    forall y | y in rest ensures key(s[0]) <= key(y) {
      assert y in multiset(rest);
      if y != x {
        var k :| 0 <= k < |s[1..]| && s[1..][k] == y;
        assert s[k + 1] == y;
      }
    }
    ConsSorted(s[0], rest, key);
  }

  /** In a sorted list, an element outside a non-empty prefix has a key no
      smaller than the prefix's last. */
  lemma OutsidePrefixBelow<T>(s: seq<T>, key: T -> real, n: nat, x: T)
    requires SortedBy(s, key) && 0 < n <= |s| && x in s && x !in s[..n]
    ensures n < |s| && key(s[n - 1]) <= key(x)
  {
    var k :| 0 <= k < |s| && s[k] == x;
    assert forall j :: 0 <= j < n ==> s[..n][j] == s[j];
    assert n - 1 < k;
  }

  /** A sorted list stays sorted under a head no greater than any element. */
  lemma ConsSorted<T>(h: T, rest: seq<T>, key: T -> real)
    requires SortedBy(rest, key) && forall y :: y in rest ==> key(h) <= key(y)
    ensures SortedBy([h] + rest, key)
  {
    var r := [h] + rest;
    forall i, j | 0 <= i < j < |r| ensures key(r[i]) <= key(r[j]) {
      assert r[j] == rest[j - 1];
      if i > 0 {
        assert r[i] == rest[i - 1];
      }
    }
  }

  /** Insertion sort: the stable ascending order of `s` by `key`. */
  function SortBy<T>(s: seq<T>, key: T -> real): (r: seq<T>)
    ensures SortedBy(r, key)
    ensures multiset(r) == multiset(s)
    ensures |r| == |s|
  {
    if s == [] then []
    else
      assert s == [s[0]] + s[1..];
      InsertBy(s[0], SortBy(s[1..], key), key)
  }

  lemma SortedBySlice<T>(s: seq<T>, key: T -> real, lo: nat, hi: nat)
    requires SortedBy(s, key) && lo <= hi <= |s|
    ensures SortedBy(s[lo..hi], key)
  {
  }

  /** The elements of `s` whose key is `k`, in order. */
  function WithKey<T>(s: seq<T>, key: T -> real, k: real): seq<T>
  {
    if s == [] then [] else (if key(s[0]) == k then [s[0]] else []) + WithKey(s[1..], key, k)
  }

  /** Picking the elements with key `k` distributes over concatenation. */
  lemma {:induction false} WithKeyConcat<T>(a: seq<T>, b: seq<T>, key: T -> real, k: real)
    ensures WithKey(a + b, key, k) == WithKey(a, key, k) + WithKey(b, key, k)
  {
    if a == [] {
      assert a + b == b;
    } else {
      var h := if key(a[0]) == k then [a[0]] else [];
      assert WithKey(a + b, key, k) == h + WithKey(a[1..] + b, key, k) by {
        assert (a + b)[0] == a[0] && (a + b)[1..] == a[1..] + b;
      }
      WithKeyConcat(a[1..], b, key, k);
      assert h + (WithKey(a[1..], key, k) + WithKey(b, key, k))
          == (h + WithKey(a[1..], key, k)) + WithKey(b, key, k);
    }
  }

  /** `a` is a prefix of `b`. */
  ghost predicate IsPrefix<T>(a: seq<T>, b: seq<T>) {
    |a| <= |b| && b[..|a|] == a
  }

  /** The elements with key `k` of a prefix `r` of `s` are a prefix of
      those of `s`, whatever name `w` the latter go by. */
  lemma WithKeyPrefix<T>(r: seq<T>, s: seq<T>, key: T -> real, k: real, w: seq<T>)
    requires |r| <= |s| && r == s[..|r|] && WithKey(s, key, k) == w
    ensures IsPrefix(WithKey(r, key, k), w)
  {
    var kept, rest := WithKey(r, key, k), WithKey(s[|r|..], key, k);
    assert w == kept + rest by {
      assert s == r + s[|r|..];
      WithKeyConcat(r, s[|r|..], key, k);
    }
    assert (kept + rest)[..|kept|] == kept;
  }

  lemma MultisetPrefix<T>(s: seq<T>, n: nat)
    requires n <= |s|
    ensures multiset(s[..n]) <= multiset(s)
  {
    assert s == s[..n] + s[n..];
  }

  lemma {:induction false} InsertByStable<T>(x: T, s: seq<T>, key: T -> real, k: real)
    requires SortedBy(s, key)
    ensures WithKey(InsertBy(x, s, key), key, k)
         == (if key(x) == k then [x] else []) + WithKey(s, key, k)
  {
    if s == [] {
      WithKeyCons(x, s, key, k);
      assert [x] + s == [x];
    } else if key(x) <= key(s[0]) {
      WithKeyCons(x, s, key, k);
    } else {
      SortedBySlice(s, key, 1, |s|);
      InsertByStable(x, s[1..], key, k);
      StableBehindHead(x, s, InsertBy(x, s[1..], key), key, k);
    }
  }

  /** When `x` goes behind the head of `s`, its key is above the head's, so
      at most one of the two has key `k`, and the order among the kept
      elements is the head, then what the tail keeps with `x`. */
  lemma StableBehindHead<T>(x: T, s: seq<T>, rest: seq<T>, key: T -> real, k: real)
    requires s != [] && key(s[0]) < key(x)
    requires WithKey(rest, key, k) == (if key(x) == k then [x] else []) + WithKey(s[1..], key, k)
    ensures WithKey([s[0]] + rest, key, k) == (if key(x) == k then [x] else []) + WithKey(s, key, k)
  {
    WithKeyCons(s[0], rest, key, k);
    WithKeyCons(s[0], s[1..], key, k);
    assert [s[0]] + s[1..] == s;
    SwapExclusiveHeads(if key(x) == k then [x] else [], if key(s[0]) == k then [s[0]] else [],
                       WithKey(s[1..], key, k));
  }

  lemma WithKeyCons<T>(h: T, t: seq<T>, key: T -> real, k: real)
    ensures WithKey([h] + t, key, k) == (if key(h) == k then [h] else []) + WithKey(t, key, k)
  {
    assert ([h] + t)[0] == h && ([h] + t)[1..] == t;
  }

  lemma SwapExclusiveHeads<T>(a: seq<T>, b: seq<T>, w: seq<T>)
    requires a == [] || b == []
    ensures b + (a + w) == a + (b + w)
  {
    if a == [] {
      assert a + w == w && a + (b + w) == b + w;
    } else {
      assert b + (a + w) == a + w && b + w == w;
    }
  }

  /** Stability: among elements with equal keys the input order is kept. */
  lemma {:induction false} SortByStable<T>(s: seq<T>, key: T -> real, k: real)
    ensures WithKey(SortBy(s, key), key, k) == WithKey(s, key, k)
  {
    if s != [] {
      SortByStable(s[1..], key, k);
      InsertByStable(s[0], SortBy(s[1..], key), key, k);
    }
  }
  /** Cutting the stable sort after `n` elements keeps, for every key, the
      first elements of the input with that key; all of them when nothing
      is cut. */
  lemma SortTakeStable<T>(s: seq<T>, key: T -> real, n: nat, k: real)
    ensures IsPrefix(WithKey(Take(SortBy(s, key), n), key, k), WithKey(s, key, k))
    ensures |s| <= n ==> WithKey(Take(SortBy(s, key), n), key, k) == WithKey(s, key, k)
  {
    var sorted := SortBy(s, key);
    SortByStable(s, key, k);
    WithKeyPrefix(Take(sorted, n), sorted, key, k, WithKey(s, key, k));
    if |s| <= n {
      TakeAll(sorted, n);
    }
  }

  /** `SortTakeStable` for a list `r` known to be the cut stable sort. */
  lemma SortTakeStableAt<T>(s: seq<T>, key: T -> real, n: nat, k: real, r: seq<T>)
    requires r == Take(SortBy(s, key), n)
    ensures IsPrefix(WithKey(r, key, k), WithKey(s, key, k))
    ensures |s| <= n ==> WithKey(r, key, k) == WithKey(s, key, k)
  {
    SortTakeStable(s, key, n, k);
  }

}

/** A file found by walking a directory tree: the chain of sub-directories
    below the walked root, then the file name. */
module FileTree {
  import opened Common

  datatype WalkFile = WalkFile(subdirs: seq<string>, name: string)

  function JoinDirs(root: string, subdirs: seq<string>): string
    decreases |subdirs|
  {
    if subdirs == [] then root else JoinDirs(root + "/" + subdirs[0], subdirs[1..])
  }

  /** `str(Path(root) / file)` for a POSIX path. */
  function FullPath(root: string, f: WalkFile): string
  {
    JoinDirs(root, f.subdirs) + "/" + f.name
  }

  /** The last component of a '/'-separated path (`PurePath.name`). */
  function BaseName(path: string): (r: string)
    ensures '/' !in r && EndsWith(path, r)
  {
    path[LastIndexOf(path, '/') + 1..]
  }

  /** `PurePath.suffix`: from the last dot of the name, unless that dot is the
      name's first or last character. */
  function Suffix(name: string): (r: string)
    ensures r == "" || (r[0] == '.' && '.' !in r[1..] && |r| >= 2 && EndsWith(name, r))
  {
    var i := LastIndexOf(name, '.');
    if 0 < i < |name| - 1 then
      name[i..]
    else ""
  }

  /** `os.path.splitext(name)[1]` for a bare file name: from the last dot,
      provided a character other than a dot comes before it. */
  function SplitExt(name: string): (r: string)
    ensures r == "" || (r[0] == '.' && '.' !in r[1..] && EndsWith(name, r))
  {
    var i := LastIndexOf(name, '.');
    if i > 0 && exists k :: 0 <= k < i && name[k] != '.' then
      name[i..]
    else ""
  }
}
