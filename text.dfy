/**
 * The Kotlin string operations the core relies on: `isBlank`, `trim`,
 * `split(",")`, `all { it.isDigit() }`, `toIntOrNull`, `Int.toString` and
 * `contains(other, ignoreCase = true)`. Digits and case folding are over
 * ASCII; whitespace is Kotlin's `Char.isWhitespace`.
 */
module Text {
  import opened Common

  const INT_MIN: int := -0x8000_0000
  const INT_MAX: int := 0x7FFF_FFFF

  predicate IsInt32(n: int) { INT_MIN <= n <= INT_MAX }

  /** Kotlin `Char.isWhitespace`: Java's `isWhitespace` or `isSpaceChar`. */
  predicate IsWhitespace(c: char) {
    c == ' ' || ('\t' <= c <= '\r') || ('\U{1C}' <= c <= '\U{1F}')
    || c == '\U{A0}' || c == '\U{1680}' || ('\U{2000}' <= c <= '\U{200A}')
    || c == '\U{2028}' || c == '\U{2029}' || c == '\U{202F}' || c == '\U{205F}'
    || c == '\U{3000}'
  }

  /** `CharSequence.isBlank()`: empty or whitespace only. */
  predicate IsBlank(s: string) {
    forall i :: 0 <= i < |s| ==> IsWhitespace(s[i])
  }

  function TrimStart(s: string): (r: string)
    ensures |r| <= |s| && r == s[|s| - |r|..]
    ensures forall i :: 0 <= i < |s| - |r| ==> IsWhitespace(s[i])
    ensures r == [] || !IsWhitespace(r[0])
  {
    if |s| > 0 && IsWhitespace(s[0]) then
      var r := TrimStart(s[1..]);
      assert s[1..][|s| - 1 - |r|..] == s[|s| - |r|..];
      assert forall i :: 1 <= i < |s| - |r| ==> s[i] == s[1..][i - 1];
      r
    else s
  }

  function TrimEnd(s: string): (r: string)
    ensures |r| <= |s| && r == s[..|r|]
    ensures forall i :: |r| <= i < |s| ==> IsWhitespace(s[i])
    ensures r == [] || !IsWhitespace(r[|r| - 1])
  {
    if |s| > 0 && IsWhitespace(s[|s| - 1]) then TrimEnd(s[..|s| - 1]) else s
  }

  /** `r` occurs in `s` starting at index `i`. */
  predicate InfixAt(r: string, s: string, i: int) {
    0 <= i <= |s| - |r| && r == s[i..i + |r|]
  }

  /** `r` is `s` without the whitespace before index `i` and after `r`. */
  predicate TrimmedAt(r: string, s: string, i: int) {
    InfixAt(r, s, i) && IsBlank(s[..i]) && IsBlank(s[i + |r|..])
  }

  /** `String.trim()`: drops leading and trailing whitespace, and nothing else. */
  function Trim(s: string): (r: string)
    ensures exists i :: TrimmedAt(r, s, i)
    ensures r == [] || (!IsWhitespace(r[0]) && !IsWhitespace(r[|r| - 1]))
  {
    TrimIsInfix(s);
    TrimEdges(s);
    TrimEnd(TrimStart(s))
  }

  /** What trimming keeps is the piece of `s` after the leading whitespace, and only whitespace surrounds it. */
  lemma TrimIsInfix(s: string)
    ensures TrimmedAt(TrimEnd(TrimStart(s)), s, |s| - |TrimStart(s)|)
  {
    var t := TrimStart(s);
    TrimmedAtSlice(s, |s| - |t|, TrimEnd(t));
  }

  /** A prefix of `s[i..]` followed only by whitespace, with only whitespace before `i`, is trimmed from `s` at `i`. */
  lemma TrimmedAtSlice(s: string, i: nat, r: string)
    requires i <= |s| && forall k :: 0 <= k < i ==> IsWhitespace(s[k])
    requires |r| <= |s| - i && r == s[i..][..|r|]
    requires forall k :: |r| <= k < |s| - i ==> IsWhitespace(s[i..][k])
    ensures TrimmedAt(r, s, i)
  {
    SliceOfSuffix(s, i, |r|);
    PrefixBlank(s, i);
    SuffixOfSuffixBlank(s, i, |r|);
  }

  /** Whitespace before index `i` makes the prefix up to `i` blank. */
  lemma PrefixBlank(s: string, i: nat)
    requires i <= |s| && forall k :: 0 <= k < i ==> IsWhitespace(s[k])
    ensures IsBlank(s[..i])
  {
    assert forall k :: 0 <= k < i ==> s[..i][k] == s[k];
  }

  /** Whitespace after the first `n` characters of `s[i..]` makes `s[i + n..]` blank. */
  lemma SuffixOfSuffixBlank(s: string, i: nat, n: nat)
    requires i + n <= |s| && forall k :: n <= k < |s| - i ==> IsWhitespace(s[i..][k])
    ensures IsBlank(s[i + n..])
  {
    var tail := s[i + n..];
    forall k | 0 <= k < |tail|
      ensures IsWhitespace(tail[k])
    {
      assert tail[k] == s[i..][n + k];
    }
  }

  /** What trimming keeps starts and ends with a character that is not whitespace. */
  lemma TrimEdges(s: string)
    ensures var r := TrimEnd(TrimStart(s)); r == [] || (!IsWhitespace(r[0]) && !IsWhitespace(r[|r| - 1]))
  {
    var t := TrimStart(s);
    var r := TrimEnd(t);
    assert r == t[..|r|];
    assert r != [] ==> r[0] == t[0];
  }

  /** A prefix of a suffix is a slice. */
  lemma SliceOfSuffix(s: string, i: nat, n: nat)
    requires i + n <= |s|
    ensures s[i..][..n] == s[i..i + n]
  {
  }

  /** A string is blank exactly when trimming leaves nothing. */
  lemma BlankIffTrimEmpty(s: string)
    ensures IsBlank(s) <==> Trim(s) == []
  {
    var t := TrimStart(s);
    if Trim(s) == [] {
      assert t == [];
    } else {
      var r := Trim(s);
      assert r[0] == t[0] == s[|s| - |t|];
    }
  }

  predicate IsDigit(c: char) { '0' <= c <= '9' }

  /** `s.all { it.isDigit() }`; true of the empty string. */
  predicate AllDigits(s: string) {
    forall i :: 0 <= i < |s| ==> IsDigit(s[i])
  }

  /** The value of a string of decimal digits. */
  function DigitsValue(s: string): (n: nat)
    requires AllDigits(s)
  {
    if |s| == 0 then 0
    else DigitsValue(s[..|s| - 1]) * 10 + (s[|s| - 1] as int - '0' as int)
  }

  /** Decimal digits of a natural number, most significant first. */
  function NatDigits(n: nat): (s: string)
    ensures |s| >= 1 && AllDigits(s)
  {
    if n < 10 then [('0' as int + n) as char]
    else NatDigits(n / 10) + [('0' as int + n % 10) as char]
  }

  lemma {:induction false} NatDigitsValue(n: nat)
    ensures DigitsValue(NatDigits(n)) == n
  {
    if n >= 10 {
      var s := NatDigits(n);
      assert s[..|s| - 1] == NatDigits(n / 10);
      NatDigitsValue(n / 10);
    }
  }

  /** `Int.toString()`: a minus sign for negative values, then the digits. */
  function IntToString(n: int): (s: string)
  {
    if n < 0 then "-" + NatDigits(-n) else NatDigits(n)
  }

  /**
   * `String.toIntOrNull()`: an optional sign followed by at least one digit,
   * with a value that fits in 32 bits; anything else is null.
   */
  function ParseInt(s: string): (r: Option<int>)
    ensures r.Some? ==> IsInt32(r.value)
    ensures r.Some? ==> |s| >= 1
  {
    if |s| == 0 then None
    else if s[0] == '-' || s[0] == '+' then
      if |s| == 1 || !AllDigits(s[1..]) then None
      else
        var m: int := DigitsValue(s[1..]);
        var v := if s[0] == '-' then -m else m;
        if IsInt32(v) then Some(v) else None
    else if AllDigits(s) && DigitsValue(s) <= INT_MAX then Some(DigitsValue(s))
    else None
  }

  /** A digits-only string within range reads back as its value. */
  lemma ParseDigits(s: string)
    requires |s| >= 1 && AllDigits(s)
    ensures ParseInt(s) == if DigitsValue(s) <= INT_MAX then Some(DigitsValue(s)) else None
  {
    assert IsDigit(s[0]);
  }

  /** `n.toString().toIntOrNull() == n` for every 32-bit `n`. */
  lemma ParseIntToString(n: int)
    requires IsInt32(n)
    ensures ParseInt(IntToString(n)) == Some(n)
  {
    if n < 0 {
      ParseNegative(-n);
    } else {
      NatDigitsValue(n);
      ParseDigits(NatDigits(n));
    }
  }

  /** A minus sign before the digits of `m` reads back as `-m`. */
  lemma ParseNegative(m: nat)
    requires 0 < m && IsInt32(-(m as int))
    ensures ParseInt("-" + NatDigits(m)) == Some(-(m as int))
  {
    var d := NatDigits(m);
    var s := "-" + d;
    assert s[0] == '-' && s[1..] == d;
    NatDigitsValue(m);
  }

  /** ASCII case folding, as `ignoreCase = true` compares characters. */
  function FoldCase(c: char): char {
    if 'A' <= c <= 'Z' then (c as int + 32) as char else c
  }

  predicate SameIgnoringCase(a: string, b: string) {
    |a| == |b| && forall i :: 0 <= i < |a| ==> FoldCase(a[i]) == FoldCase(b[i])
  }

  /** `needle` matches `haystack` at index `i`, ignoring case. */
  predicate MatchesAt(haystack: string, needle: string, i: int) {
    0 <= i <= |haystack| - |needle| && SameIgnoringCase(haystack[i..i + |needle|], needle)
  }

  /** `haystack.contains(needle, ignoreCase = true)`. */
  predicate ContainsIgnoreCase(haystack: string, needle: string) {
    exists i :: 0 <= i <= |haystack| - |needle| && MatchesAt(haystack, needle, i)
  }

  /** `s.split(d)` with a one-character delimiter: every piece, empty ones included. */
  function Split(s: string, d: char): (r: seq<string>)
    ensures |r| >= 1
  {
    if |s| == 0 then [""]
    else
      var rest := Split(s[1..], d);
      if s[0] == d then [""] + rest else [[s[0]] + rest[0]] + rest[1..]
  }

  /** `joinToString(d)`. */
  function Join(pieces: seq<string>, d: char): string
    requires |pieces| >= 1
  {
    if |pieces| == 1 then pieces[0] else pieces[0] + [d] + Join(pieces[1..], d)
  }

  /** Splitting loses nothing: joining the pieces back gives the string. */
  lemma {:induction false} SplitJoin(s: string, d: char)
    ensures Join(Split(s, d), d) == s
    ensures forall k :: 0 <= k < |Split(s, d)| ==> d !in Split(s, d)[k]
  {
    if |s| > 0 {
      var rest := Split(s[1..], d);
      SplitJoin(s[1..], d);
      if s[0] == d {
        assert Split(s, d)[1..] == rest;
      } else {
        var r := Split(s, d);
        if |rest| > 1 {
          assert r[1..] == rest[1..];
          assert Join(r, d) == r[0] + [d] + Join(rest[1..], d);
        }
        assert Join(r, d) == [s[0]] + Join(rest, d);
        assert s == [s[0]] + s[1..];
      }
    }
  }
}
