/**
 * String primitives the browser script relies on: decimal rendering of
 * integers (`String(n)`, template literals), case mapping
 * (`toLowerCase`/`toUpperCase`), substring search (`includes`) and the
 * whitespace class used by `trim` and the `\s` of regular expressions.
 */
module Text {

  // ---------------------------------------------------------------- digits

  predicate IsDigit(c: char) {
    '0' <= c <= '9'
  }

  predicate AllDigits(s: string) {
    forall i :: 0 <= i < |s| ==> IsDigit(s[i])
  }

  function DigitChar(d: nat): (c: char)
    requires d < 10
    ensures IsDigit(c) && c as int - '0' as int == d
  {
    ('0' as int + d) as char
  }

  /** Value of a string of decimal digits; the empty string reads as 0. */
  function DigitsValue(s: string): nat
    requires AllDigits(s)
  {
    if s == [] then 0 else DigitsValue(s[..|s| - 1]) * 10 + (s[|s| - 1] as int - '0' as int)
  }

  /** Decimal rendering of a non-negative integer, as `String(n)` gives it. */
  function NatToString(n: nat): (r: string)
    ensures |r| >= 1 && AllDigits(r)
    ensures r[0] == '0' ==> n == 0
    decreases n
  {
    if n < 10 then [DigitChar(n)] else NatToString(n / 10) + [DigitChar(n % 10)]
  }

  /** Reading a rendered number back gives the number. */
  lemma {:induction false} NatToStringValue(n: nat)
    ensures DigitsValue(NatToString(n)) == n
    decreases n
  {
    if n >= 10 {
      var p := NatToString(n / 10);
      assert NatToString(n)[..|NatToString(n)| - 1] == p;
      NatToStringValue(n / 10);
    }
  }

  /** Number of leading decimal digits. */
  function LeadingDigits(s: string): (k: nat)
    ensures k <= |s| && AllDigits(s[..k])
    ensures k < |s| ==> !IsDigit(s[k])
  {
    if s == [] || !IsDigit(s[0]) then 0
    else
      var k := 1 + LeadingDigits(s[1..]);
      assert s[..k] == [s[0]] + s[1..][..k - 1];
      k
  }

  /** The digits of `d` are exactly the leading digits of `d + rest` when `rest` does not start with a digit. */
  lemma {:induction false} LeadingDigitsOfConcat(d: string, rest: string)
    requires AllDigits(d)
    requires rest == [] || !IsDigit(rest[0])
    ensures LeadingDigits(d + rest) == |d|
    ensures (d + rest)[..|d|] == d
  {
    if d != [] {
      assert (d + rest)[1..] == d[1..] + rest;
      LeadingDigitsOfConcat(d[1..], rest);
    }
  }

  // ------------------------------------------------------------ case maps

  /** Upper-case letters: ASCII A-Z and the basic Cyrillic capitals U+0400..U+042F. */
  predicate IsUpper(c: char) {
    'A' <= c <= 'Z' || '\U{0400}' <= c <= '\U{042F}'
  }

  /** `toLowerCase` on one character (ASCII and basic Cyrillic). */
  function Lower(c: char): char {
    if 'A' <= c <= 'Z' || '\U{0410}' <= c <= '\U{042F}' then (c as int + 32) as char
    else if '\U{0400}' <= c <= '\U{040F}' then (c as int + 80) as char
    else c
  }

  /** `toUpperCase` on one character (ASCII and basic Cyrillic). */
  function Upper(c: char): char {
    if 'a' <= c <= 'z' || '\U{0430}' <= c <= '\U{044F}' then (c as int - 32) as char
    else if '\U{0450}' <= c <= '\U{045F}' then (c as int - 80) as char
    else c
  }

  lemma LowerIsNotUpper(c: char)
    ensures !IsUpper(Lower(c))
  {
  }

  function LowerStr(s: string): (r: string)
    ensures |r| == |s|
    ensures forall i :: 0 <= i < |s| ==> r[i] == Lower(s[i])
  {
    seq(|s|, i requires 0 <= i < |s| => Lower(s[i]))
  }

  // ------------------------------------------------------- substring search

  /** `w` occurs in `s` starting at index `i`. */
  predicate OccursAt(s: string, w: string, i: int) {
    0 <= i && i + |w| <= |s| && s[i..i + |w|] == w
  }

  /** `s.includes(w)`. */
  predicate Includes(s: string, w: string) {
    exists i :: 0 <= i <= |s| - |w| && OccursAt(s, w, i)
  }

  /** A word holding a capital letter never occurs in a lower-cased string. */
  lemma NoCapitalInLowered(s: string, w: string, k: nat)
    requires k < |w| && IsUpper(w[k])
    ensures !Includes(LowerStr(s), w)
  {
    var l := LowerStr(s);
    forall i | 0 <= i <= |l| - |w| && OccursAt(l, w, i)
      ensures false
    {
      assert l[i..i + |w|][k] == w[k];
      LowerIsNotUpper(s[i + k]);
    }
  }

  /** An occurrence in either operand is an occurrence in the concatenation. */
  lemma IncludesInConcat(a: string, b: string, w: string)
    requires Includes(a, w) || Includes(b, w)
    ensures Includes(a + b, w)
  {
    if Includes(a, w) {
      var i :| 0 <= i <= |a| - |w| && OccursAt(a, w, i);
      assert (a + b)[i..i + |w|] == a[i..i + |w|];
      assert OccursAt(a + b, w, i);
    } else {
      var i :| 0 <= i <= |b| - |w| && OccursAt(b, w, i);
      assert (a + b)[|a| + i..|a| + i + |w|] == b[i..i + |w|];
      assert OccursAt(a + b, w, |a| + i);
    }
  }

  // ------------------------------------------------------------ whitespace

  /** The characters of the ECMAScript WhiteSpace and LineTerminator productions (`\s`, `trim`). */
  predicate IsSpace(c: char) {
    c == ' ' || c == '\t' || c == '\n' || c == '\r' || c == '\U{000B}' || c == '\U{000C}'
    || c == '\U{00A0}' || c == '\U{1680}' || ('\U{2000}' <= c <= '\U{200A}')
    || c == '\U{2028}' || c == '\U{2029}' || c == '\U{202F}' || c == '\U{205F}'
    || c == '\U{3000}' || c == '\U{FEFF}'
  }

  /** `s.trim()`: drops white space at both ends. */
  function Trim(s: string): (r: string)
    ensures |r| <= |s|
    ensures r != [] ==> !IsSpace(r[0]) && !IsSpace(r[|r| - 1])
    ensures s != [] && !IsSpace(s[0]) && !IsSpace(s[|s| - 1]) ==> r == s
  {
    var lo := SpaceRunEnd(s, 0);
    s[lo..SpaceRunStart(s, lo, |s|)]
  }

  /** End of the run of white space that starts at `i`. */
  function SpaceRunEnd(s: string, i: nat): (k: nat)
    requires i <= |s|
    ensures i <= k <= |s|
    ensures forall j :: i <= j < k ==> IsSpace(s[j])
    ensures k < |s| ==> !IsSpace(s[k])
    decreases |s| - i
  {
    if i < |s| && IsSpace(s[i]) then SpaceRunEnd(s, i + 1) else i
  }

  /** Start of the run of white space that ends at `hi`, not going below `lo`. */
  function SpaceRunStart(s: string, lo: nat, hi: nat): (k: nat)
    requires lo <= hi <= |s|
    ensures lo <= k <= hi
    ensures forall j :: k <= j < hi ==> IsSpace(s[j])
    ensures k > lo ==> !IsSpace(s[k - 1])
  {
    if hi > lo && IsSpace(s[hi - 1]) then SpaceRunStart(s, lo, hi - 1) else hi
  }

  /** `s.replace(/a/g, b)` for single characters. */
  function ReplaceAll(s: string, a: char, b: char): (r: string)
    ensures |r| == |s|
    ensures forall i :: 0 <= i < |s| ==> r[i] == if s[i] == a then b else s[i]
  {
    seq(|s|, i requires 0 <= i < |s| => if s[i] == a then b else s[i])
  }

  /** `s.replace(a, b)` with a one-character string pattern: only the first occurrence changes. */
  function ReplaceFirst(s: string, a: char, b: char): (r: string)
    ensures a !in s ==> r == s
    ensures |r| == |s| && forall k :: 0 <= k < |s| ==> r[k] == s[k] || (s[k] == a && r[k] == b)
  {
    if s == [] then []
    else if s[0] == a then [b] + s[1..]
    else [s[0]] + ReplaceFirst(s[1..], a, b)
  }
}
