/** Python string operations the core relies on, over `seq<char>`. */
module Strings {
  import opened Wrappers

  // ---------------------------------------------------------------------------
  // Characters

  /** Python's `str.isspace` on one character (the Unicode whitespace set). */
  predicate IsSpace(c: char) {
    || ('\t' <= c <= '\r') || ('\U{1C}' <= c <= '\U{1F}') || c == ' '
    || c == '\U{85}' || c == '\U{A0}' || c == '\U{1680}'
    || ('\U{2000}' <= c <= '\U{200A}') || c == '\U{2028}' || c == '\U{2029}'
    || c == '\U{202F}' || c == '\U{205F}' || c == '\U{3000}'
  }

  predicate IsDigit(c: char) { '0' <= c <= '9' }

  /** `str.lower` on one character, for the ASCII letters. */
  function LowerChar(c: char): (r: char)
    ensures 'A' <= c <= 'Z' ==> r as int == c as int + 32
    ensures !('A' <= c <= 'Z') ==> r == c
  {
    if 'A' <= c <= 'Z' then (c as int + 32) as char else c
  }

  function Lower(s: string): (r: string)
    ensures |r| == |s|
    ensures forall i :: 0 <= i < |s| ==> r[i] == LowerChar(s[i])
  {
    if s == [] then [] else [LowerChar(s[0])] + Lower(s[1..])
  }

  /** Lower-casing twice is lower-casing once. */
  lemma LowerIdempotent(s: string)
    ensures Lower(Lower(s)) == Lower(s)
  {
    var l := Lower(s);
    forall i | 0 <= i < |s| ensures Lower(l)[i] == l[i] {
      assert LowerChar(LowerChar(s[i])) == LowerChar(s[i]);
    }
  }

  // ---------------------------------------------------------------------------
  // Substrings

  predicate OccursAt(s: string, p: string, i: nat) {
    i + |p| <= |s| && s[i..i + |p|] == p
  }

  predicate StartsWith(s: string, p: string) { OccursAt(s, p, 0) }

  /** A prefix of a prefix is a prefix. */
  lemma StartsWithTrans(a: string, b: string, c: string)
    requires StartsWith(a, b) && StartsWith(b, c)
    ensures StartsWith(a, c)
  {
    assert a[..|c|] == a[..|b|][..|c|];
  }

  lemma AppendAssociates<T>(a: seq<T>, b: seq<T>, c: seq<T>)
    ensures (a + b) + c == a + (b + c)
  {
  }

  /** The pieces of a five-part concatenation are its consecutive slices. */
  lemma Pieces<T>(a: seq<T>, b: seq<T>, c: seq<T>, d: seq<T>, e: seq<T>)
    ensures var t := a + b + c + d + e;
      && t[..|a|] == a
      && t[|a|..|a| + |b|] == b
      && t[|a| + |b|..|a| + |b| + |c|] == c
      && t[|a| + |b| + |c|..|a| + |b| + |c| + |d|] == d
  {
  }

  /** The first position at or after `from` where `p` occurs in `s` (Python's `str.find`). */
  function IndexOf(s: string, p: string, from: nat): (r: Option<nat>)
    decreases |s| - from
    ensures r.Some? ==> from <= r.value && OccursAt(s, p, r.value)
    ensures r.Some? ==> forall j :: from <= j < r.value ==> !OccursAt(s, p, j)
    ensures r.None? ==> forall j :: from <= j ==> !OccursAt(s, p, j)
  {
    if from + |p| > |s| then None
    else if s[from..from + |p|] == p then Some(from)
    else IndexOf(s, p, from + 1)
  }

  /** `str.find` stops at the first occurrence at or after `from`. */
  lemma IndexOfExact(s: string, p: string, from: nat, i: nat)
    requires from <= i && OccursAt(s, p, i)
    requires forall j :: from <= j < i ==> !OccursAt(s, p, j)
    ensures IndexOf(s, p, from) == Some(i)
  {
  }

  /** Python's `p in s`. */
  predicate Contains(s: string, p: string) { IndexOf(s, p, 0).Some? }

  lemma ContainsIff(s: string, p: string)
    ensures Contains(s, p) <==> exists i: nat :: OccursAt(s, p, i)
  {
    if exists i: nat :: OccursAt(s, p, i) {
      var i: nat :| OccursAt(s, p, i);
      assert IndexOf(s, p, 0).Some?;
    }
  }

  /** A slice of a string without an occurrence of `p` has none either. */
  lemma SliceNoOccurrence(s: string, p: string, i: nat, j: nat)
    requires !Contains(s, p) && i <= j <= |s|
    ensures !Contains(s[i..j], p)
  {
    var r := s[i..j];
    ContainsIff(s, p);
    forall q: nat ensures !OccursAt(r, p, q) {
      if q + |p| <= |r| {
        var a, b := r[q..q + |p|], s[i + q..i + q + |p|];
        assert forall k :: 0 <= k < |p| ==> a[k] == b[k];
        assert a == b;
        assert !OccursAt(s, p, i + q);
      }
    }
    ContainsIff(r, p);
  }

  /** An occurrence inside a suffix is an occurrence in the whole string. */
  lemma ContainsConcat(a: string, b: string, p: string)
    ensures Contains(b, p) ==> Contains(a + b, p)
    ensures Contains(a, p) ==> Contains(a + b, p)
  {
    if Contains(b, p) {
      var i := IndexOf(b, p, 0).value;
      assert (a + b)[|a| + i..|a| + i + |p|] == b[i..i + |p|];
      assert OccursAt(a + b, p, |a| + i);
      ContainsIff(a + b, p);
    }
    if Contains(a, p) {
      var i := IndexOf(a, p, 0).value;
      assert (a + b)[i..i + |p|] == a[i..i + |p|];
      assert OccursAt(a + b, p, i);
      ContainsIff(a + b, p);
    }
  }

  // ---------------------------------------------------------------------------
  // Split and join with an explicit separator

  function Join(parts: seq<string>, sep: string): (r: string)
  {
    if |parts| == 0 then ""
    else if |parts| == 1 then parts[0]
    else parts[0] + sep + Join(parts[1..], sep)
  }

  /** Python's `s.split(sep)` for a non-empty separator. */
  function SplitOn(s: string, sep: string): (r: seq<string>)
    requires |sep| > 0
    decreases |s|
    ensures |r| >= 1
  {
    match IndexOf(s, sep, 0)
    case None => [s]
    case Some(i) => [s[..i]] + SplitOn(s[i + |sep|..], sep)
  }

  lemma JoinCons(x: string, tail: seq<string>, sep: string)
    requires |tail| >= 1
    ensures Join([x] + tail, sep) == x + sep + Join(tail, sep)
  {
    assert ([x] + tail)[1..] == tail;
  }

  /** Splitting and joining with the same separator gives the string back. */
  lemma {:induction false} JoinSplitOn(s: string, sep: string)
    requires |sep| > 0
    ensures Join(SplitOn(s, sep), sep) == s
    decreases |s|
  {
    var found := IndexOf(s, sep, 0);
    if found.Some? {
      var i := found.value;
      var rest := s[i + |sep|..];
      var tail := SplitOn(rest, sep);
      JoinSplitOn(rest, sep);
      assert SplitOn(s, sep) == [s[..i]] + tail;
      JoinCons(s[..i], tail, sep);
      assert s[i..i + |sep|] == sep;
      assert s == s[..i] + s[i..i + |sep|] + rest;
    }
  }

  /** No piece of a split contains the separator. */
  lemma {:induction false} SplitOnPieces(s: string, sep: string)
    requires |sep| > 0
    ensures forall k :: 0 <= k < |SplitOn(s, sep)| ==> !Contains(SplitOn(s, sep)[k], sep)
    decreases |s|
  {
    match IndexOf(s, sep, 0)
    case None =>
    case Some(i) =>
      var rest := s[i + |sep|..];
      SplitOnPieces(rest, sep);
      var head := s[..i];
      forall j: nat | OccursAt(head, sep, j) ensures j < i && OccursAt(s, sep, j) {
        assert s[j..j + |sep|] == head[j..j + |sep|];
      }
      ContainsIff(head, sep);
  }

  /** Number of occurrences of a character. */
  function Count(s: string, c: char): nat
  {
    if s == [] then 0 else (if s[0] == c then 1 else 0) + Count(s[1..], c)
  }

  lemma CountConcat(a: string, b: string, c: char)
    ensures Count(a + b, c) == Count(a, c) + Count(b, c)
  {
    if a == [] {
      assert a + b == b;
    } else {
      assert (a + b)[1..] == a[1..] + b;
    }
  }

  lemma CountNone(s: string, c: char)
    requires forall k :: 0 <= k < |s| ==> s[k] != c
    ensures Count(s, c) == 0
  {
  }

  /** Splitting at a one-character separator gives one piece more than it has occurrences. */
  lemma {:induction false} SplitOnCharCount(s: string, c: char)
    ensures |SplitOn(s, [c])| == Count(s, c) + 1
    decreases |s|
  {
    match IndexOf(s, [c], 0)
    case None =>
      forall k | 0 <= k < |s| ensures s[k] != c {
        assert !OccursAt(s, [c], k);
        assert s[k..k + 1] == [s[k]];
      }
      CountNone(s, c);
    case Some(i) =>
      var rest := s[i + 1..];
      SplitOnCharCount(rest, c);
      forall k | 0 <= k < i ensures s[..i][k] != c {
        assert !OccursAt(s, [c], k);
        assert s[k..k + 1] == [s[k]];
      }
      CountNone(s[..i], c);
      assert s[i..i + 1] == [c];
      assert s == s[..i] + [c] + rest;
      CountConcat(s[..i] + [c], rest, c);
      CountConcat(s[..i], [c], c);
  }

  /** Splitting at the first occurrence of a one-character separator. */
  lemma SplitOnCharCons(a: string, c: char, b: string)
    requires forall k :: 0 <= k < |a| ==> a[k] != c
    ensures SplitOn(a + [c] + b, [c]) == [a] + SplitOn(b, [c])
  {
    var s := a + [c] + b;
    assert OccursAt(s, [c], |a|) by {
      assert s[|a|..|a| + 1] == [c];
    }
    forall j | 0 <= j < |a| ensures !OccursAt(s, [c], j) {
      assert s[j..j + 1] == [a[j]];
    }
    assert IndexOf(s, [c], 0) == Some(|a|);
    assert s[..|a|] == a && s[|a| + 1..] == b;
  }

  /** A string without the separator splits into itself alone. */
  lemma SplitOnCharNone(b: string, c: char)
    requires forall k :: 0 <= k < |b| ==> b[k] != c
    ensures SplitOn(b, [c]) == [b]
  {
    forall j | 0 <= j ensures !OccursAt(b, [c], j) {
      if j < |b| {
        assert b[j..j + 1] == [b[j]];
      }
    }
  }

  /** Where `str.find` of a one-character string stops: no earlier position holds the character. */
  lemma FindChar(a: string, c: char)
    ensures IndexOf(a, [c], 0).None? ==> forall k :: 0 <= k < |a| ==> a[k] != c
    ensures IndexOf(a, [c], 0).Some? ==>
      var i := IndexOf(a, [c], 0).value;
      i < |a| && a[i] == c && forall k :: 0 <= k < i ==> a[k] != c
  {
    match IndexOf(a, [c], 0)
    case None =>
      forall k | 0 <= k < |a| ensures a[k] != c {
        assert !OccursAt(a, [c], k);
        assert a[k..k + 1] == [a[k]];
      }
    case Some(i) =>
      assert a[i..i + 1] == [a[i]];
      forall k | 0 <= k < i ensures a[k] != c {
        assert !OccursAt(a, [c], k);
        assert a[k..k + 1] == [a[k]];
      }
  }

  /** Splitting at the last occurrence of a one-character separator. */
  lemma {:induction false} SplitOnCharSnoc(a: string, c: char, b: string)
    requires forall k :: 0 <= k < |b| ==> b[k] != c
    ensures SplitOn(a + [c] + b, [c]) == SplitOn(a, [c]) + [b]
    decreases |a|
  {
    SplitOnCharNone(b, c);
    FindChar(a, c);
    match IndexOf(a, [c], 0)
    case None =>
      SplitOnCharCons(a, c, b);
      SplitOnCharNone(a, c);
    case Some(i) =>
      SplitAtFirst(a, c, b, i);
      SplitOnCharSnoc(a[i + 1..], c, b);
  }

  /** Both `a + [c] + b` and `a` split first at the first `c` in `a`. */
  lemma SplitAtFirst(a: string, c: char, b: string, i: nat)
    requires i < |a| && a[i] == c && forall k :: 0 <= k < i ==> a[k] != c
    ensures SplitOn(a + [c] + b, [c]) == [a[..i]] + SplitOn(a[i + 1..] + [c] + b, [c])
    ensures SplitOn(a, [c]) == [a[..i]] + SplitOn(a[i + 1..], [c])
  {
    var head, rest := a[..i], a[i + 1..];
    assert a == head + [c] + rest;
    assert a + [c] + b == head + [c] + (rest + [c] + b);
    SplitOnCharCons(head, c, rest + [c] + b);
    SplitOnCharCons(head, c, rest);
  }

  // ---------------------------------------------------------------------------
  // Whitespace

  predicate AllSpace(s: string) { forall i :: 0 <= i < |s| ==> IsSpace(s[i]) }

  /** Number of leading whitespace characters. */
  function LeadingSpace(s: string): (n: nat)
    ensures n <= |s|
    ensures AllSpace(s[..n])
    ensures n < |s| ==> !IsSpace(s[n])
  {
    if s == [] || !IsSpace(s[0]) then 0 else 1 + LeadingSpace(s[1..])
  }

  /** Number of trailing whitespace characters. */
  function TrailingSpace(s: string): (n: nat)
    ensures n <= |s|
    ensures AllSpace(s[|s| - n..])
    ensures n < |s| ==> !IsSpace(s[|s| - n - 1])
  {
    if s == [] || !IsSpace(s[|s| - 1]) then 0 else 1 + TrailingSpace(s[..|s| - 1])
  }

  /** Where `str.strip()` cuts: the first non-whitespace position and one past the last. */
  function StripBounds(s: string): (b: (nat, nat))
    ensures b.0 <= b.1 <= |s|
    ensures AllSpace(s[..b.0]) && AllSpace(s[b.1..])
    ensures b.0 < b.1 ==> !IsSpace(s[b.0]) && !IsSpace(s[b.1 - 1])
    ensures b.0 == b.1 ==> AllSpace(s)
  {
    var i := LeadingSpace(s);
    if i == |s| then
      assert s[..i] == s;
      (i, i)
    else
      var t := TrailingSpace(s[i..]);
      TrailingAfterLeading(s, i);
      (i, |s| - t)
  }

  /** Past a non-space character, the trailing whitespace stops before it. */
  lemma TrailingAfterLeading(s: string, i: nat)
    requires i < |s| && !IsSpace(s[i])
    ensures var t := TrailingSpace(s[i..]);
      t < |s| - i && AllSpace(s[|s| - t..]) && !IsSpace(s[|s| - t - 1])
  {
    var u := s[i..];
    var t := TrailingSpace(u);
    assert u[0] == s[i];
    assert u[|u| - t..] == s[|s| - t..];
    assert u[|u| - t - 1] == s[|s| - t - 1];
  }

  /** Python's `str.strip()`: the slice left after removing whitespace at both ends. */
  function Strip(s: string): (r: string)
    ensures exists i, j :: 0 <= i <= j <= |s| && r == s[i..j] && AllSpace(s[..i]) && AllSpace(s[j..])
    ensures r != [] ==> !IsSpace(r[0]) && !IsSpace(r[|r| - 1])
    ensures r == [] <==> AllSpace(s)
  {
    var b := StripBounds(s);
    s[b.0..b.1]
  }

  /** A string that neither starts nor ends with whitespace is its own strip. */
  lemma StripUnchanged(s: string)
    requires s != [] && !IsSpace(s[0]) && !IsSpace(s[|s| - 1])
    ensures Strip(s) == s
  {
    assert LeadingSpace(s) == 0;
    assert s[0..] == s;
    assert TrailingSpace(s) == 0;
  }

  /** Python's `str.split()` without arguments: the maximal runs of non-whitespace. */
  function Words(s: string): (r: seq<string>)
    decreases |s|
    ensures forall k :: 0 <= k < |r| ==> r[k] != [] && !HasSpace(r[k])
    ensures r == [] <==> AllSpace(s)
  {
    var i := LeadingSpace(s);
    if i == |s| then
      assert s[..i] == s;
      []
    else
      var rest := s[i..];
      var w := WordLength(rest);
      var tail := Words(rest[w..]);
      assert !AllSpace(s) by {
        assert !IsSpace(s[i]);
      }
      ConsIndex(rest[..w], tail);
      [rest[..w]] + tail
  }

  lemma ConsIndex<T>(h: T, t: seq<T>)
    ensures ([h] + t)[0] == h && forall k :: 0 < k < |t| + 1 ==> ([h] + t)[k] == t[k - 1]
  {
  }

  predicate HasSpace(s: string) { exists i :: 0 <= i < |s| && IsSpace(s[i]) }

  function WordLength(s: string): (n: nat)
    requires s != [] && !IsSpace(s[0])
    ensures 1 <= n <= |s|
    ensures !HasSpace(s[..n])
    ensures n < |s| ==> IsSpace(s[n])
  {
    if |s| == 1 || IsSpace(s[1]) then 1
    else
      var m := WordLength(s[1..]);
      assert s[..1 + m] == [s[0]] + s[1..][..m];
      1 + m
  }

  // ---------------------------------------------------------------------------
  // Replacement

  /** Python's `s.replace(pat, repl)` for a non-empty `pat`: every occurrence, left to right. */
  function ReplaceAll(s: string, pat: string, repl: string): (r: string)
    requires |pat| > 0
    decreases |s|
    ensures !Contains(s, pat) ==> r == s
  {
    match IndexOf(s, pat, 0)
    case None => s
    case Some(i) => s[..i] + repl + ReplaceAll(s[i + |pat|..], pat, repl)
  }

  /** Replacing in a string whose leading occurrence is at the front puts `repl` there. */
  lemma ReplaceAllFront(s: string, pat: string, repl: string)
    requires |pat| > 0 && StartsWith(s, pat)
    ensures StartsWith(ReplaceAll(s, pat, repl), repl)
  {
    assert IndexOf(s, pat, 0) == Some(0);
    assert s[..0] == [];
    var r := ReplaceAll(s, pat, repl);
    assert r == repl + ReplaceAll(s[|pat|..], pat, repl);
    assert r[..|repl|] == repl;
  }

  // ---------------------------------------------------------------------------
  // Decimal numbers

  function DigitChar(d: nat): (c: char)
    requires d < 10
    ensures IsDigit(c)
  {
    ('0' as int + d) as char
  }

  function DigitValue(c: char): (d: nat)
    requires IsDigit(c)
    ensures d < 10
  {
    c as int - '0' as int
  }

  /** Python's `str(n)` for a natural number. */
  function NatToString(n: nat): (r: string)
    ensures |r| >= 1
    ensures forall i :: 0 <= i < |r| ==> IsDigit(r[i])
    ensures n > 0 ==> r[0] != '0'
    decreases n
  {
    if n < 10 then [DigitChar(n)] else NatToString(n / 10) + [DigitChar(n % 10)]
  }

  /** Python's `str(i)` for any integer. */
  function IntToString(i: int): (r: string)
    ensures |r| >= 1
  {
    if i < 0 then "-" + NatToString(-i) else NatToString(i)
  }

  predicate AllDigits(s: string) { forall i :: 0 <= i < |s| ==> IsDigit(s[i]) }

  /** The value of a string of decimal digits (what Python's `int` gives for it). */
  function ParseDigits(s: string): nat
    requires AllDigits(s)
  {
    if s == [] then 0 else ParseDigits(s[..|s| - 1]) * 10 + DigitValue(s[|s| - 1])
  }

  lemma {:induction false} ParseNatToString(n: nat)
    ensures ParseDigits(NatToString(n)) == n
    decreases n
  {
    var r := NatToString(n);
    if n >= 10 {
      ParseNatToString(n / 10);
      assert r[..|r| - 1] == NatToString(n / 10);
    }
  }

  /** Leading zeros do not change the value. */
  lemma {:induction false} ParseLeadingZeros(k: nat, s: string)
    requires AllDigits(s)
    ensures AllDigits(Zeros(k) + s) && ParseDigits(Zeros(k) + s) == ParseDigits(s) + 0
    decreases |s|
  {
    if s == [] {
      assert Zeros(k) + s == Zeros(k);
      ZerosValue(k);
    } else {
      var t := Zeros(k) + s;
      assert t[..|t| - 1] == Zeros(k) + s[..|s| - 1];
      ParseLeadingZeros(k, s[..|s| - 1]);
    }
  }

  function Zeros(k: nat): (r: string)
    ensures |r| == k && forall i :: 0 <= i < k ==> r[i] == '0'
  {
    if k == 0 then [] else Zeros(k - 1) + ['0']
  }

  lemma {:induction false} ZerosValue(k: nat)
    ensures AllDigits(Zeros(k)) && ParseDigits(Zeros(k)) == 0
  {
    if k > 0 {
      ZerosValue(k - 1);
      assert Zeros(k)[..k - 1] == Zeros(k - 1);
    }
  }

  /** Python's `f"{n:0Wd}"`: the decimal digits, padded on the left with zeros to width `w`. */
  function ZeroPad(n: nat, w: nat): (r: string)
    ensures |r| == if |NatToString(n)| < w then w else |NatToString(n)|
    ensures AllDigits(r)
  {
    var d := NatToString(n);
    if |d| < w then Zeros(w - |d|) + d else d
  }

  /** Parsing a zero-padded number gives the number back, whatever the width. */
  lemma ParseZeroPad(n: nat, w: nat)
    ensures ParseDigits(ZeroPad(n, w)) == n
  {
    var d := NatToString(n);
    ParseNatToString(n);
    if |d| < w {
      ParseLeadingZeros(w - |d|, d);
    }
  }

  lemma ZeroPadInjective(a: nat, b: nat, w: nat)
    ensures ZeroPad(a, w) == ZeroPad(b, w) ==> a == b
  {
    ParseZeroPad(a, w);
    ParseZeroPad(b, w);
  }

  /** Python's slice `s[:k]` for any integer `k` (a negative `k` counts from the end). */
  function PyPrefix<T>(s: seq<T>, k: int): (r: seq<T>)
    ensures k >= 0 ==> r == s[..if k < |s| then k else |s|]
    ensures k < 0 ==> r == s[..if |s| + k < 0 then 0 else |s| + k]
  {
    var n := if k >= 0 then (if k < |s| then k else |s|) else (if |s| + k < 0 then 0 else |s| + k);
    s[..n]
  }

  /** Python's slice `s[k:]` for any integer `k` (a negative `k` counts from the end). */
  function PyFrom<T>(s: seq<T>, k: int): (r: seq<T>)
    ensures k >= 0 ==> r == s[if k < |s| then k else |s|..]
    ensures k < 0 ==> r == s[if |s| + k < 0 then 0 else |s| + k..]
    ensures |r| <= |s| && r == s[|s| - |r|..]
  {
    var n := if k >= 0 then (if k < |s| then k else |s|) else (if |s| + k < 0 then 0 else |s| + k);
    s[n..]
  }

  /** Python's `s[k]` for any integer `k`: `None` where Python raises an IndexError. */
  function PyAt<T>(s: seq<T>, k: int): (r: Option<T>)
    ensures 0 <= k < |s| ==> r == Some(s[k])
    ensures -|s| <= k < 0 ==> r == Some(s[|s| + k])
    ensures r.None? <==> k < -|s| || |s| <= k
  {
    if 0 <= k < |s| then Some(s[k]) else if -|s| <= k < 0 then Some(s[|s| + k]) else None
  }

  /** Python's `int(x)` for a float: truncation toward zero. */
  function Trunc(x: real): (i: int)
    ensures x >= 0.0 ==> i == x.Floor
    ensures -1.0 < x - (i as real) < 1.0
  {
    if x >= 0.0 then x.Floor else -((-x).Floor)
  }

  /** Python's `f"{i:0{w}d}"`: zero padding to width `w`, a minus sign counting towards it. */
  function PadInt(i: int, w: nat): (r: string)
    ensures i >= 0 ==> r == ZeroPad(i, w)
  {
    if i >= 0 then ZeroPad(i, w) else "-" + ZeroPad(-i, if w > 0 then w - 1 else 0)
  }
}
