/** The string operations of the JavaScript standard library the components
    use, over `seq<char>`: lower-casing, `includes`, `split`/`join` on a
    single character, `replace` of the first occurrence, `trim`, and the
    decimal rendering of integers in template literals. */
module Strings {
  import opened Js

  // ---------------------------------------------------------------------
  // Lower-casing
  // ---------------------------------------------------------------------

  predicate IsUpperAscii(c: char)
  {
    'A' <= c <= 'Z'
  }

  function LowerChar(c: char): char
  {
    if IsUpperAscii(c) then (c as int + 32) as char else c
  }

  /** `s.toLowerCase()`, for the ASCII letters. */
  function ToLower(s: string): (r: string)
    ensures |r| == |s|
    ensures forall i :: 0 <= i < |s| ==> r[i] == LowerChar(s[i])
  {
    seq(|s|, i requires 0 <= i < |s| => LowerChar(s[i]))
  }

  // ---------------------------------------------------------------------
  // Searching
  // ---------------------------------------------------------------------

  /** `pat` occurs in `s` starting at index `i`. */
  predicate OccursAt(s: string, pat: string, i: int)
  {
    0 <= i && i + |pat| <= |s| && s[i..i + |pat|] == pat
  }

  /** `s.includes(pat)`. */
  predicate Contains(s: string, pat: string)
  {
    exists i | 0 <= i <= |s| - |pat| :: OccursAt(s, pat, i)
  }

  /** `s.indexOf(c)`, with `None` for -1. */
  function IndexOfChar(s: string, c: char): (r: Option<nat>)
    ensures r.None? <==> c !in s
    ensures r.Some? ==> r.value < |s| && s[r.value] == c && c !in s[..r.value]
  {
    if |s| == 0 then None
    else if s[0] == c then Some(0)
    else match IndexOfChar(s[1..], c)
      case None => None
      case Some(k) =>
        assert s[..k + 1] == [s[0]] + s[1..][..k];
        Some(k + 1)
  }

  /** The first index at which `pat` occurs in `s`, as `s.indexOf(pat)`. */
  function IndexOf(s: string, pat: string): (r: Option<nat>)
    ensures r.Some? ==> OccursAt(s, pat, r.value)
    ensures r.Some? ==> forall k :: 0 <= k < r.value ==> !OccursAt(s, pat, k)
    ensures r.None? <==> !Contains(s, pat)
  {
    IndexOfFrom(s, pat, 0)
  }

  function IndexOfFrom(s: string, pat: string, from: nat): (r: Option<nat>)
    requires from <= |s|
    requires forall k :: 0 <= k < from ==> !OccursAt(s, pat, k)
    ensures r.Some? ==> OccursAt(s, pat, r.value)
    ensures r.Some? ==> forall k :: 0 <= k < r.value ==> !OccursAt(s, pat, k)
    ensures r.None? ==> forall k :: 0 <= k <= |s| ==> !OccursAt(s, pat, k)
    decreases |s| - from
  {
    if OccursAt(s, pat, from) then Some(from)
    else if from == |s| then None
    else IndexOfFrom(s, pat, from + 1)
  }

  /** `s.replace(pat, with)` for a string pattern: only the first occurrence is replaced. */
  function ReplaceFirst(s: string, pat: string, with: string): (r: string)
    ensures !Contains(s, pat) ==> r == s
    ensures pat <= s ==> r == with + s[|pat|..]
  {
    match IndexOf(s, pat)
    case None => s
    case Some(i) =>
      assert pat <= s ==> OccursAt(s, pat, 0);
      s[..i] + with + s[i + |pat|..]
  }

  // ---------------------------------------------------------------------
  // Splitting and joining on one character
  // ---------------------------------------------------------------------

  /** `parts.join(sep)`. */
  function Join(parts: seq<string>, sep: char): string
  {
    if |parts| == 0 then ""
    else if |parts| == 1 then parts[0]
    else parts[0] + [sep] + Join(parts[1..], sep)
  }

  /** `s.split(sep)`: the pieces between occurrences of `sep`, empty pieces included. */
  function Split(s: string, sep: char): (r: seq<string>)
    ensures |r| >= 1
    ensures forall k :: 0 <= k < |r| ==> sep !in r[k]
    ensures Join(r, sep) == s
    decreases |s|
  {
    match IndexOfChar(s, sep)
    case None => [s]
    case Some(i) =>
      var rest := Split(s[i + 1..], sep);
      assert s == s[..i] + [sep] + s[i + 1..];
      assert ([s[..i]] + rest)[1..] == rest;
      [s[..i]] + rest
  }

  lemma IndexOfCharAfterPrefix(a: string, sep: char, b: string)
    requires sep !in a
    ensures IndexOfChar(a + [sep] + b, sep) == Some(|a|)
  {
    var s := a + [sep] + b;
    assert s[..|a|] == a;
    assert s[|a|] == sep;
  }

  /** Splitting undoes joining whenever no piece contains the separator. */
  lemma {:induction false} SplitJoin(parts: seq<string>, sep: char)
    requires |parts| >= 1
    requires forall k :: 0 <= k < |parts| ==> sep !in parts[k]
    ensures Split(Join(parts, sep), sep) == parts
    decreases |parts|
  {
    if |parts| > 1 {
      var tail := Join(parts[1..], sep);
      var s := parts[0] + [sep] + tail;
      IndexOfCharAfterPrefix(parts[0], sep, tail);
      assert s[|parts[0]| + 1..] == tail;
      assert s[..|parts[0]|] == parts[0];
      SplitJoin(parts[1..], sep);
      assert parts == [parts[0]] + parts[1..];
    }
  }

  // ---------------------------------------------------------------------
  // Trimming
  // ---------------------------------------------------------------------

  /** The characters `trim` removes: the ECMAScript WhiteSpace and
      LineTerminator code points. */
  predicate IsSpace(c: char)
  {
    || c == '\t' || c == '\n' || c == '\U{B}' || c == '\U{C}' || c == '\r' || c == ' '
    || c == '\U{A0}' || c == '\U{1680}' || ('\U{2000}' <= c <= '\U{200A}')
    || c == '\U{2028}' || c == '\U{2029}' || c == '\U{202F}' || c == '\U{205F}'
    || c == '\U{3000}' || c == '\U{FEFF}'
  }

  predicate AllSpace(s: string)
  {
    forall i :: 0 <= i < |s| ==> IsSpace(s[i])
  }

  function LeadingSpaces(s: string): (n: nat)
    ensures n <= |s|
    ensures forall k :: 0 <= k < n ==> IsSpace(s[k])
    ensures n < |s| ==> !IsSpace(s[n])
  {
    if |s| > 0 && IsSpace(s[0]) then 1 + LeadingSpaces(s[1..]) else 0
  }

  function TrailingSpaces(s: string): (n: nat)
    ensures n <= |s|
    ensures forall k :: |s| - n <= k < |s| ==> IsSpace(s[k])
    ensures n < |s| ==> !IsSpace(s[|s| - n - 1])
  {
    if |s| > 0 && IsSpace(s[|s| - 1]) then 1 + TrailingSpaces(s[..|s| - 1]) else 0
  }

  /** `r` is `s` with white space removed from both ends: `r` is the slice
      `s[i..j]`, everything outside the slice is white space, and `r`
      neither starts nor ends with white space. */
  ghost predicate TrimmedFrom(s: string, r: string)
  {
    exists i, j | 0 <= i <= j <= |s| ::
      && r == s[i..j]
      && AllSpace(s[..i])
      && AllSpace(s[j..])
      && (r != "" ==> !IsSpace(r[0]) && !IsSpace(r[|r| - 1]))
  }

  /** `s.trim()`. */
  function Trim(s: string): (r: string)
    ensures TrimmedFrom(s, r)
    ensures r == "" <==> AllSpace(s)
  {
    var a := LeadingSpaces(s);
    var b := TrailingSpaces(s[a..]);
    TrimSlice(s, a, b);
    s[a..][..|s| - a - b]
  }

  /** The slice between the leading and the trailing white space is the
      trimmed form. */
  lemma TrimSlice(s: string, a: nat, b: nat)
    requires a == LeadingSpaces(s) && b == TrailingSpaces(s[a..])
    ensures TrimmedFrom(s, s[a..][..|s| - a - b])
    ensures s[a..][..|s| - a - b] == "" <==> AllSpace(s)
  {
    var j := |s| - b;
    TrailingOfSuffix(s, a, b);
    assert s[a..][..|s| - a - b] == s[a..j];
    TrimWitness(s, a, j);
  }

  lemma TrailingOfSuffix(s: string, a: nat, b: nat)
    requires a <= |s| && b == TrailingSpaces(s[a..])
    ensures a <= |s| - b
    ensures forall k :: |s| - b <= k < |s| ==> IsSpace(s[k])
    ensures a < |s| - b ==> !IsSpace(s[|s| - b - 1])
  {
    var t := s[a..];
    forall k | |s| - b <= k < |s| ensures IsSpace(s[k]) {
      assert t[k - a] == s[k];
    }
    if a < |s| - b {
      assert t[|t| - b - 1] == s[|s| - b - 1];
    }
  }

  lemma TrimWitness(s: string, i: nat, j: nat)
    requires i <= j <= |s|
    requires forall k :: 0 <= k < i ==> IsSpace(s[k])
    requires forall k :: j <= k < |s| ==> IsSpace(s[k])
    requires i < |s| ==> !IsSpace(s[i])
    requires i < j ==> !IsSpace(s[j - 1])
    ensures TrimmedFrom(s, s[i..j])
    ensures s[i..j] == "" <==> AllSpace(s)
  {
    assert AllSpace(s[..i]);
    assert AllSpace(s[j..]);
    if i == j {
      assert AllSpace(s) by {
        forall k | 0 <= k < |s| ensures IsSpace(s[k]) {
        }
      }
    }
  }

  // ---------------------------------------------------------------------
  // Decimal numerals
  // ---------------------------------------------------------------------

  predicate IsDigit(c: char)
  {
    '0' <= c <= '9'
  }

  predicate AllDigits(s: string)
  {
    forall k :: 0 <= k < |s| ==> IsDigit(s[k])
  }

  function DigitChar(d: nat): char
    requires d < 10
  {
    ('0' as int + d) as char
  }

  function DigitValue(c: char): nat
    requires IsDigit(c)
  {
    c as int - '0' as int
  }

  /** The number a string of decimal digits denotes. */
  function DecimalValue(s: string): nat
    requires AllDigits(s)
  {
    if |s| == 0 then 0 else DecimalValue(s[..|s| - 1]) * 10 + DigitValue(s[|s| - 1])
  }

  /** `String(n)` for a natural number: digits only, no leading zero, and
      reading the digits back gives `n`. */
  function NatToString(n: nat): (r: string)
    ensures |r| >= 1
    ensures AllDigits(r)
    ensures DecimalValue(r) == n
    ensures r[0] == '0' ==> r == "0"
  {
    if n < 10 then [DigitChar(n)]
    else
      var prefix := NatToString(n / 10);
      var r := prefix + [DigitChar(n % 10)];
      assert r[..|r| - 1] == prefix;
      r
  }

  /** `String(i)` for an integer, as a template literal renders it. */
  function IntToString(i: int): (r: string)
    ensures |r| >= 1
    ensures i < 0 <==> r[0] == '-'
  {
    if i < 0 then "-" + NatToString(-i) else NatToString(i)
  }

  /** Reads back an optionally negative decimal numeral. */
  function ParseInt(s: string): Option<int>
  {
    if |s| >= 2 && s[0] == '-' && AllDigits(s[1..]) then Some(-(DecimalValue(s[1..]) as int))
    else if |s| >= 1 && AllDigits(s) then Some(DecimalValue(s))
    else None
  }

  /** Rendering an integer and reading it back gives the integer. */
  lemma ParseIntToString(i: int)
    ensures ParseInt(IntToString(i)) == Some(i)
  {
    if i < 0 {
      assert IntToString(i)[1..] == NatToString(-i);
    }
  }
}
