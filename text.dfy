/**
 * The Kotlin string operations the pipeline relies on, over `string` (= `seq<char>`):
 * `startsWith`, `contains`, `indexOf`, `split` and `replace` with a literal delimiter,
 * `joinToString`, `isBlank`, `toIntOrNull` and `Int.toString`.
 */
module Text {
  import opened Wrappers

  const IntMin: int := -0x8000_0000
  const IntMax: int := 0x7FFF_FFFF

  predicate StartsWith(s: string, prefix: string) {
    |prefix| <= |s| && s[..|prefix|] == prefix
  }

  predicate EndsWith(s: string, suffix: string) {
    |suffix| <= |s| && s[|s| - |suffix|..] == suffix
  }

  /** `s.contains(t)`: `t` occurs somewhere in `s` (the empty string occurs everywhere). */
  predicate Contains(s: string, t: string)
    decreases |s|
  {
    StartsWith(s, t) || (|s| > 0 && Contains(s[1..], t))
  }

  /** An occurrence at any index makes `s` contain `t`. */
  lemma {:induction false} ContainsAtIndex(s: string, t: string, j: nat)
    requires j <= |s| && StartsWith(s[j..], t)
    ensures Contains(s, t)
    decreases j
  {
    if j == 0 {
      assert s[0..] == s;
    } else {
      assert s[1..][j - 1..] == s[j..];
      ContainsAtIndex(s[1..], t, j - 1);
    }
  }

  /** If `t` does not start at any index below `i`, then `s[..i]` does not contain the non-empty `t`. */
  lemma {:induction false} NoOccurrenceBefore(s: string, t: string, i: nat)
    requires |t| > 0 && i <= |s|
    requires forall j :: 0 <= j < i ==> !StartsWith(s[j..], t)
    ensures !Contains(s[..i], t)
    decreases i
  {
    if i > 0 {
      assert !StartsWith(s[0..], t);
      assert s[0..] == s;
      assert s[..i][1..] == s[1..][..i - 1];
      forall j | 0 <= j < i - 1
        ensures !StartsWith(s[1..][j..], t)
      {
        assert s[1..][j..] == s[j + 1..];
      }
      NoOccurrenceBefore(s[1..], t, i - 1);
    }
  }

  /** `s.indexOf(t)`: the first index at which `t` occurs in `s`, or nothing. */
  function IndexOf(s: string, t: string): (r: Option<nat>)
    ensures r.Some? ==> r.value + |t| <= |s| && StartsWith(s[r.value..], t)
    ensures r.Some? ==> forall j :: 0 <= j < r.value ==> !StartsWith(s[j..], t)
    ensures r.None? <==> !Contains(s, t)
    decreases |s|
  {
    if StartsWith(s, t) then Some(0)
    else if |s| == 0 then None
    else
      match IndexOf(s[1..], t)
      case None => None
      case Some(i) =>
        assert s[1..][i..] == s[i + 1..];
        assert forall j :: 1 <= j <= i ==> s[1..][j - 1..] == s[j..];
        Some(i + 1)
  }

  /** The items of `parts` with `delimiter` between neighbours (`joinToString(delimiter)`). */
  function Join(parts: seq<string>, delimiter: string): string
    decreases |parts|
  {
    if |parts| == 0 then ""
    else if |parts| == 1 then parts[0]
    else parts[0] + delimiter + Join(parts[1..], delimiter)
  }

  /**
   * `s.split(delimiter)` with a literal, non-empty delimiter: the pieces between
   * non-overlapping occurrences found left to right, trailing empty pieces kept.
   */
  function Split(s: string, delimiter: string): (parts: seq<string>)
    requires |delimiter| > 0
    ensures |parts| >= 1
    ensures forall k :: 0 <= k < |parts| ==> !Contains(parts[k], delimiter)
    ensures Join(parts, delimiter) == s
    decreases |s|
  {
    match IndexOf(s, delimiter)
    case None => [s]
    case Some(i) =>
      NoOccurrenceBefore(s, delimiter, i);
      var rest := Split(s[i + |delimiter|..], delimiter);
      assert s == s[..i] + delimiter + s[i + |delimiter|..] by {
        assert s[i..][..|delimiter|] == s[i..i + |delimiter|];
      }
      assert ([s[..i]] + rest)[1..] == rest;
      [s[..i]] + rest
  }

  /** Joining one more part appends the delimiter and that part. */
  lemma {:induction false} JoinSnoc(parts: seq<string>, delimiter: string, x: string)
    requires |parts| >= 1
    ensures Join(parts + [x], delimiter) == Join(parts, delimiter) + delimiter + x
    decreases |parts|
  {
    if |parts| == 1 {
      assert (parts + [x])[1..] == [x];
    } else {
      assert (parts + [x])[1..] == parts[1..] + [x];
      JoinSnoc(parts[1..], delimiter, x);
    }
  }

  /** `s.replace(target, replacement)`: every non-overlapping occurrence of `target`, left to right, replaced by `replacement`. */
  function ReplaceAll(s: string, target: string, replacement: string): string
    requires |target| > 0
  {
    Join(Split(s, target), replacement)
  }

  lemma {:induction false} ContainsChar(s: string, c: char)
    ensures Contains(s, [c]) <==> c in s
    decreases |s|
  {
    if |s| > 0 {
      ContainsChar(s[1..], c);
      assert c in s <==> s[0] == c || c in s[1..];
    }
  }

  /** Every character of a string `s` contains also occurs in `s`. */
  lemma {:induction false} ContainedCharsOccur(s: string, t: string, c: char)
    requires Contains(s, t) && c in t
    ensures c in s
    decreases |s|
  {
    if StartsWith(s, t) {
      assert c in s[..|t|];
    } else {
      ContainedCharsOccur(s[1..], t, c);
    }
  }

  /** A string lacking one of the characters of `t` does not contain `t`. */
  lemma MissingCharNotContained(s: string, t: string, c: char)
    requires c in t && c !in s
    ensures !Contains(s, t)
  {
    if Contains(s, t) {
      ContainedCharsOccur(s, t, c);
    }
  }

  /** No piece of a split on a character contains that character. */
  lemma SplitPartsLackChar(s: string, c: char)
    ensures forall k :: 0 <= k < |Split(s, [c])| ==> c !in Split(s, [c])[k]
  {
    var parts := Split(s, [c]);
    forall k | 0 <= k < |parts|
      ensures c !in parts[k]
    {
      ContainsChar(parts[k], c);
    }
  }

  /** A character that occurs in a join occurs in the delimiter or in one of the parts. */
  lemma {:induction false} JoinChars(parts: seq<string>, delimiter: string, x: char)
    requires x in Join(parts, delimiter)
    ensures x in delimiter || exists k :: 0 <= k < |parts| && x in parts[k]
    decreases |parts|
  {
    if |parts| > 1 {
      if x !in parts[0] && x !in delimiter {
        JoinChars(parts[1..], delimiter, x);
        var k :| 0 <= k < |parts| - 1 && x in parts[1..][k];
        assert x in parts[k + 1];
      }
    }
  }

  /** `s.replace(")", "")` and the like leave no occurrence of the removed character. */
  lemma RemoveAllChar(s: string, c: char)
    ensures c !in ReplaceAll(s, [c], "")
  {
    var parts := Split(s, [c]);
    if c in Join(parts, "") {
      JoinChars(parts, "", c);
      var k :| 0 <= k < |parts| && c in parts[k];
      ContainsChar(parts[k], c);
    }
  }

  /** The first occurrence of a single character is found right after a prefix that lacks it. */
  lemma {:induction false} IndexOfFirstChar(a: string, c: char, b: string)
    requires c !in a
    ensures IndexOf(a + [c] + b, [c]) == Some(|a|)
    decreases |a|
  {
    var s := a + [c] + b;
    if |a| > 0 {
      assert s[..1] == [a[0]];
      assert s[1..] == a[1..] + [c] + b;
      IndexOfFirstChar(a[1..], c, b);
    } else {
      assert s[..1] == [c];
    }
  }

  /**
   * Splitting on a single character undoes joining with it, provided no part contains
   * that character (for longer delimiters an occurrence could straddle two parts).
   */
  lemma {:induction false} SplitJoinChar(parts: seq<string>, c: char)
    requires |parts| >= 1
    requires forall k :: 0 <= k < |parts| ==> c !in parts[k]
    ensures Split(Join(parts, [c]), [c]) == parts
    decreases |parts|
  {
    if |parts| == 1 {
      ContainsChar(parts[0], c);
    } else {
      var rest := Join(parts[1..], [c]);
      IndexOfFirstChar(parts[0], c, rest);
      var s := parts[0] + [c] + rest;
      assert s[..|parts[0]|] == parts[0];
      assert s[|parts[0]| + 1..] == rest;
      SplitJoinChar(parts[1..], c);
      assert parts == [parts[0]] + parts[1..];
    }
  }

  /** Kotlin's `Char.isWhitespace()` (Java whitespace or a Unicode space separator). */
  predicate IsWhitespace(c: char) {
    c == ' ' || c == '\t' || c == '\n' || c == '\r' || c == '\U{B}' || c == '\U{C}'
    || ('\U{1C}' <= c <= '\U{1F}') || c == '\U{A0}' || c == '\U{1680}'
    || ('\U{2000}' <= c <= '\U{200A}') || c == '\U{2028}' || c == '\U{2029}'
    || c == '\U{202F}' || c == '\U{205F}' || c == '\U{3000}'
  }

  /** `s.isBlank()`: empty or made of whitespace only. */
  predicate IsBlank(s: string) {
    forall i :: 0 <= i < |s| ==> IsWhitespace(s[i])
  }

  predicate IsDigit(c: char) {
    '0' <= c <= '9'
  }

  predicate AllDigits(s: string) {
    forall i :: 0 <= i < |s| ==> IsDigit(s[i])
  }

  /** The value of a string of decimal digits. */
  function DigitsValue(s: string): nat
    requires AllDigits(s)
    decreases |s|
  {
    if |s| == 0 then 0 else 10 * DigitsValue(s[..|s| - 1]) + (s[|s| - 1] as int - '0' as int)
  }

  /**
   * `s.toIntOrNull()`: an optional `+` or `-` followed by at least one decimal digit,
   * whose value fits in a 32-bit `Int`; anything else is null.
   */
  function ToIntOrNull(s: string): (r: Option<int>)
    ensures r.Some? ==> IntMin <= r.value <= IntMax
    ensures r.Some? ==> exists k :: 0 <= k < |s| && IsDigit(s[k])
  {
    if |s| == 0 then None
    else
      var signed := s[0] == '-' || s[0] == '+';
      var digits := if signed then s[1..] else s;
      if |digits| == 0 || !AllDigits(digits) then None
      else
        assert IsDigit(s[|s| - 1]) by { assert s[|s| - 1] == digits[|digits| - 1]; }
        var v: int := if s[0] == '-' then 0 - DigitsValue(digits) as int else DigitsValue(digits);
        if IntMin <= v <= IntMax then Some(v) else None
  }

  function DigitChar(d: nat): (c: char)
    requires d < 10
  {
    ('0' as int + d) as char
  }

  /** `n.toString()` for a non-negative `n`: its decimal digits, without leading zeros. */
  function NatToString(n: nat): (s: string)
    ensures |s| >= 1 && AllDigits(s) && DigitsValue(s) == n
    decreases n
  {
    if n < 10 then [DigitChar(n)]
    else
      var prefix := NatToString(n / 10);
      var s := prefix + [DigitChar(n % 10)];
      assert s[..|s| - 1] == prefix;
      s
  }

  /** `i.toString()` for an `Int`. */
  function IntToString(i: int): string {
    if i < 0 then "-" + NatToString(-i) else NatToString(i)
  }

  /** Parsing what `toString` prints gives the number back. */
  lemma IntToStringRoundTrip(i: int)
    requires IntMin <= i <= IntMax
    ensures ToIntOrNull(IntToString(i)) == Some(i)
  {
    var s := IntToString(i);
    if i < 0 {
      var d := NatToString(-i);
      assert s[1..] == d;
      assert s[0] == '-';
    } else {
      assert IsDigit(s[0]);
    }
  }
}
