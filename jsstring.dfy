/**
 * The JavaScript string built-ins that the command engine and the keypair
 * forms rely on, written out so that their behaviour can be reasoned about:
 * `indexOf` / `replace` with a string pattern (first occurrence only),
 * `includes`, `trim`, `Number#toString()` (base 10 and base 16),
 * `Number(text)` on plain decimal text, and `padStart`.
 */
module JsString {
  import opened Wrappers

  // ---------------------------------------------------------------------
  // Searching and replacing
  // ---------------------------------------------------------------------

  /** `pat` occurs in `s` starting at index `i`. */
  predicate MatchAt(s: string, pat: string, i: nat) {
    i + |pat| <= |s| && s[i..i + |pat|] == pat
  }

  lemma MatchAtTail(s: string, pat: string)
    requires |s| > 0
    ensures forall j: nat :: j >= 1 ==> (MatchAt(s, pat, j) <==> MatchAt(s[1..], pat, j - 1))
  {
    forall j: nat | j >= 1
      ensures MatchAt(s, pat, j) <==> MatchAt(s[1..], pat, j - 1)
    {
      if j + |pat| <= |s| {
        assert s[1..][j - 1..j - 1 + |pat|] == s[j..j + |pat|];
      }
    }
  }

  /** An occurrence in `b` is an occurrence in `a + b`, shifted by `|a|`. */
  lemma MatchAtShift(a: string, b: string, pat: string, k: nat)
    ensures MatchAt(a + b, pat, |a| + k) <==> MatchAt(b, pat, k)
  {
    if k + |pat| <= |b| {
      assert (a + b)[|a| + k..|a| + k + |pat|] == b[k..k + |pat|];
    }
  }

  /** `s.indexOf(pat)`: the first index at which `pat` occurs, or None (JavaScript's -1). */
  function IndexOf(s: string, pat: string): (r: Option<nat>)
    ensures r.Some? ==> MatchAt(s, pat, r.value)
    ensures r.Some? ==> forall j: nat :: j < r.value ==> !MatchAt(s, pat, j)
    ensures r.None? ==> forall j: nat :: !MatchAt(s, pat, j)
    decreases |s|
  {
    if |s| < |pat| then None
    else if s[..|pat|] == pat then Some(0)
    else
      MatchAtTail(s, pat);
      match IndexOf(s[1..], pat)
      case None => None
      case Some(i) => Some(i + 1)
  }

  /** A match with no match before it is what `indexOf` finds. */
  lemma IndexOfFirst(s: string, pat: string, i: nat)
    requires MatchAt(s, pat, i)
    requires forall j: nat :: j < i ==> !MatchAt(s, pat, j)
    ensures IndexOf(s, pat) == Some(i)
  {
  }

  /** `s.includes(sub)`. */
  predicate Includes(s: string, sub: string) {
    IndexOf(s, sub).Some?
  }

  lemma IncludesIff(s: string, sub: string)
    ensures Includes(s, sub) <==> exists i: nat :: MatchAt(s, sub, i)
  {
    if Includes(s, sub) {
      assert MatchAt(s, sub, IndexOf(s, sub).value);
    }
  }

  /**
   * `s.replace(pat, rep)` with a string pattern: only the first occurrence
   * is replaced; with no occurrence the string is returned unchanged. The
   * `$`-patterns JavaScript interprets inside `rep` are not modelled.
   */
  function ReplaceFirst(s: string, pat: string, rep: string): string {
    match IndexOf(s, pat)
    case None => s
    case Some(i) => s[..i] + rep + s[i + |pat|..]
  }

  /** With no occurrence, `replace` changes nothing. */
  lemma ReplaceFirstNoMatch(s: string, pat: string, rep: string)
    requires forall j: nat :: !MatchAt(s, pat, j)
    ensures ReplaceFirst(s, pat, rep) == s
  {
  }

  /** The first occurrence, and only it, is replaced. */
  lemma ReplaceFirstAt(a: string, pat: string, b: string, rep: string)
    requires forall j: nat :: j < |a| ==> !MatchAt(a + pat + b, pat, j)
    ensures ReplaceFirst(a + pat + b, pat, rep) == a + rep + b
  {
    var s := a + pat + b;
    assert s[|a|..|a| + |pat|] == pat;
    IndexOfFirst(s, pat, |a|);
    assert s[..|a|] == a;
    assert s[|a| + |pat|..] == b;
  }

  /** Replacing an occurrence by nothing shortens the string, so an unchanged string had none. */
  lemma ReplaceFirstUnchanged(s: string, pat: string)
    requires |pat| > 0 && ReplaceFirst(s, pat, "") == s
    ensures !Includes(s, pat)
  {
  }

  /** No occurrence starts in `a`, nor in the first `k` places of `b`: none starts before `|a| + k` in `a + b`. */
  lemma NoMatchBefore(a: string, b: string, pat: string, k: nat)
    requires forall j: nat :: j < |a| ==> !MatchAt(a + b, pat, j)
    requires forall j: nat :: j < k ==> !MatchAt(b, pat, j)
    ensures forall j: nat :: j < |a| + k ==> !MatchAt(a + b, pat, j)
  {
    forall j: nat | |a| <= j < |a| + k ensures !MatchAt(a + b, pat, j) {
      MatchAtShift(a, b, pat, j - |a|);
    }
  }

  /** Behind a prefix with no occurrence, the first occurrence in `b` is the first in `a + b`. */
  lemma IndexOfSkipFound(a: string, b: string, pat: string, k: nat)
    requires forall j: nat :: j < |a| ==> !MatchAt(a + b, pat, j)
    requires IndexOf(b, pat) == Some(k)
    ensures IndexOf(a + b, pat) == Some(|a| + k)
  {
    NoMatchBefore(a, b, pat, k);
    MatchAtShift(a, b, pat, k);
    IndexOfFirst(a + b, pat, |a| + k);
  }

  /** Behind a prefix with no occurrence, `a + b` has an occurrence only if `b` has. */
  lemma IndexOfSkipMissing(a: string, b: string, pat: string)
    requires forall j: nat :: j < |a| ==> !MatchAt(a + b, pat, j)
    requires IndexOf(b, pat) == None
    ensures IndexOf(a + b, pat) == None
  {
    NoMatchBefore(a, b, pat, |b| + 1);
    assert forall j: nat :: !MatchAt(a + b, pat, j);
  }

  /** `replace` where `indexOf` finds the pattern at `i`. */
  lemma ReplaceFirstFound(s: string, pat: string, rep: string, i: nat)
    requires IndexOf(s, pat) == Some(i)
    ensures i + |pat| <= |s| && ReplaceFirst(s, pat, rep) == s[..i] + rep + s[i + |pat|..]
  {
  }

  /** `replace` at index `k` of `b` is `replace` at index `|a| + k` of `a + b`, with `a` kept in front. */
  lemma ReplaceFirstShift(a: string, b: string, pat: string, rep: string, k: nat)
    requires |a| + k + |pat| <= |a + b| &&
      ReplaceFirst(a + b, pat, rep) == (a + b)[..|a| + k] + rep + (a + b)[|a| + k + |pat|..]
    requires k + |pat| <= |b| && ReplaceFirst(b, pat, rep) == b[..k] + rep + b[k + |pat|..]
    ensures ReplaceFirst(a + b, pat, rep) == a + ReplaceFirst(b, pat, rep)
  {
    assert (a + b)[..|a| + k] == a + b[..k];
    assert (a + b)[|a| + k + |pat|..] == b[k + |pat|..];
  }

  /** A prefix in which no occurrence starts is carried over untouched. */
  lemma ReplaceFirstSkip(a: string, b: string, pat: string, rep: string)
    requires forall j: nat :: j < |a| ==> !MatchAt(a + b, pat, j)
    ensures ReplaceFirst(a + b, pat, rep) == a + ReplaceFirst(b, pat, rep)
  {
    match IndexOf(b, pat)
    case None =>
      IndexOfSkipMissing(a, b, pat);
    case Some(k) =>
      IndexOfSkipFound(a, b, pat, k);
      ReplaceFirstSkipFound(a, b, pat, rep, k);
  }

  lemma ReplaceFirstSkipFound(a: string, b: string, pat: string, rep: string, k: nat)
    requires IndexOf(a + b, pat) == Some(|a| + k) && IndexOf(b, pat) == Some(k)
    ensures ReplaceFirst(a + b, pat, rep) == a + ReplaceFirst(b, pat, rep)
  {
    ReplaceFirstFound(a + b, pat, rep, |a| + k);
    ReplaceFirstFound(b, pat, rep, k);
    ReplaceFirstShift(a, b, pat, rep, k);
  }

  // ---------------------------------------------------------------------
  // trim
  // ---------------------------------------------------------------------

  /** The characters `String.prototype.trim` removes: white space and line terminators. */
  const WhitespaceChars: set<char> := {'\t', '\n', '\U{000B}', '\U{000C}', '\r', ' ', '\U{00A0}', '\U{1680}',
    '\U{2000}', '\U{2001}', '\U{2002}', '\U{2003}', '\U{2004}', '\U{2005}', '\U{2006}', '\U{2007}', '\U{2008}', '\U{2009}', '\U{200A}',
    '\U{2028}', '\U{2029}', '\U{202F}', '\U{205F}', '\U{3000}', '\U{FEFF}'}

  predicate IsWhitespace(c: char) {
    c in WhitespaceChars
  }

  /** The number of white-space characters `s` starts with. */
  function LeadingWhitespace(s: string): (n: nat)
    ensures n <= |s|
    ensures forall k :: 0 <= k < n ==> IsWhitespace(s[k])
    ensures n < |s| ==> !IsWhitespace(s[n])
  {
    if |s| == 0 || !IsWhitespace(s[0]) then 0 else 1 + LeadingWhitespace(s[1..])
  }

  /** The number of white-space characters `s` ends with. */
  function TrailingWhitespace(s: string): (n: nat)
    ensures n <= |s|
    ensures forall k :: |s| - n <= k < |s| ==> IsWhitespace(s[k])
    ensures n < |s| ==> !IsWhitespace(s[|s| - 1 - n])
  {
    if |s| == 0 || !IsWhitespace(s[|s| - 1]) then 0 else 1 + TrailingWhitespace(s[..|s| - 1])
  }

  /** `s.trim()`: `s` without its leading and trailing white space. */
  function Trim(s: string): (r: string)
    ensures LeadingWhitespace(s) + |r| <= |s|
    ensures r == s[LeadingWhitespace(s)..LeadingWhitespace(s) + |r|]
    ensures forall k :: LeadingWhitespace(s) + |r| <= k < |s| ==> IsWhitespace(s[k])
    ensures r != [] ==> !IsWhitespace(r[0]) && !IsWhitespace(r[|r| - 1])
    ensures r == [] <==> forall k :: 0 <= k < |s| ==> IsWhitespace(s[k])
  {
    var lead := LeadingWhitespace(s);
    var t := s[lead..];
    var r := t[..|t| - TrailingWhitespace(t)];
    TrimParts(s, lead, t, r);
    r
  }

  lemma TrimParts(s: string, lead: nat, t: string, r: string)
    requires lead == LeadingWhitespace(s) && t == s[lead..]
    requires r == t[..|t| - TrailingWhitespace(t)]
    ensures lead + |r| <= |s| && r == s[lead..lead + |r|]
    ensures forall k :: lead + |r| <= k < |s| ==> IsWhitespace(s[k])
    ensures r != [] ==> !IsWhitespace(r[0]) && !IsWhitespace(r[|r| - 1])
    ensures r == [] <==> forall k :: 0 <= k < |s| ==> IsWhitespace(s[k])
  {
    TrimTail(s, lead, t, r);
    TrimEnds(s, lead, t, r);
    TrimBlank(s, lead, t, r);
  }

  /** What follows the trimmed text is white space. */
  lemma TrimTail(s: string, lead: nat, t: string, r: string)
    requires lead == LeadingWhitespace(s) && t == s[lead..]
    requires r == t[..|t| - TrailingWhitespace(t)]
    ensures forall k :: lead + |r| <= k < |s| ==> IsWhitespace(s[k])
  {
    var trail := TrailingWhitespace(t);
    assert |r| == |t| - trail && |t| == |s| - lead;
    forall k | lead + |r| <= k < |s| ensures IsWhitespace(s[k]) {
      assert |t| - trail <= k - lead < |t|;
      assert s[k] == t[k - lead];
    }
  }

  /** The trimmed text neither starts nor ends with white space. */
  lemma TrimEnds(s: string, lead: nat, t: string, r: string)
    requires lead == LeadingWhitespace(s) && t == s[lead..]
    requires r == t[..|t| - TrailingWhitespace(t)]
    ensures r != [] ==> !IsWhitespace(r[0]) && !IsWhitespace(r[|r| - 1])
  {
    if r != [] {
      assert r[0] == s[lead];
      assert r[|r| - 1] == t[|t| - 1 - TrailingWhitespace(t)];
    }
  }

  /** The trimmed text is empty exactly when the whole text is white space. */
  lemma TrimBlank(s: string, lead: nat, t: string, r: string)
    requires lead == LeadingWhitespace(s) && t == s[lead..]
    requires r == t[..|t| - TrailingWhitespace(t)]
    ensures r == [] <==> forall k :: 0 <= k < |s| ==> IsWhitespace(s[k])
  {
    assert lead < |s| ==> t[0] == s[lead];
  }

  /** Trimming twice is trimming once. */
  lemma TrimIdempotent(s: string)
    ensures Trim(Trim(s)) == Trim(s)
  {
    var r := Trim(s);
    if r != [] {
      assert LeadingWhitespace(r) == 0;
      assert TrailingWhitespace(r) == 0;
      assert r[0..|r|] == r;
    }
  }

  // ---------------------------------------------------------------------
  // Decimal text: Number#toString() and Number(text) on integers
  // ---------------------------------------------------------------------

  predicate IsDigit(c: char) {
    '0' <= c <= '9'
  }

  predicate AllDigits(s: string) {
    forall k :: 0 <= k < |s| ==> IsDigit(s[k])
  }

  function DigitChar(d: nat): (c: char)
    requires d < 10
    ensures IsDigit(c)
  {
    (48 + d) as char
  }

  function DigitValue(c: char): (d: nat)
    requires IsDigit(c)
    ensures d < 10 && DigitChar(d) == c
  {
    (c as int) - 48
  }

  /** The decimal digits of `n`, without leading zeros. */
  function NatToDecimal(n: nat): (r: string)
    ensures |r| > 0 && AllDigits(r)
    ensures |r| > 1 ==> r[0] != '0'
  {
    if n < 10 then [DigitChar(n)] else NatToDecimal(n / 10) + [DigitChar(n % 10)]
  }

  /** `n.toString()` for an integer `n`. */
  function IntToDecimal(n: int): (r: string)
    ensures |r| > 0
    ensures '{' !in r && '}' !in r
  {
    if n < 0 then "-" + NatToDecimal(-n) else NatToDecimal(n)
  }

  /** The value of a string of decimal digits. */
  function DigitsValue(s: string): nat
    requires AllDigits(s)
  {
    if |s| == 0 then 0 else DigitsValue(s[..|s| - 1]) * 10 + DigitValue(s[|s| - 1])
  }

  /**
   * `Number(text)` on text made of an optional minus sign and decimal
   * digits; any other text is not a number (None stands for NaN).
   */
  function ParseDecimal(s: string): Option<int> {
    if |s| > 1 && s[0] == '-' && AllDigits(s[1..]) then Some(-(DigitsValue(s[1..]) as int))
    else if |s| > 0 && AllDigits(s) then Some(DigitsValue(s) as int)
    else None
  }

  lemma {:induction false} NatToDecimalValue(n: nat)
    ensures DigitsValue(NatToDecimal(n)) == n
  {
    var r := NatToDecimal(n);
    if n >= 10 {
      NatToDecimalValue(n / 10);
      assert r[..|r| - 1] == NatToDecimal(n / 10);
    }
  }

  /** Reading back the decimal text of an integer gives the integer. */
  lemma DecimalRoundTrip(n: int)
    ensures ParseDecimal(IntToDecimal(n)) == Some(n)
  {
    if n < 0 {
      NegativeDecimalRoundTrip(-n);
    } else {
      NaturalDecimalRoundTrip(n);
    }
  }

  lemma NaturalDecimalRoundTrip(n: nat)
    ensures ParseDecimal(NatToDecimal(n)) == Some(n)
  {
    var d := NatToDecimal(n);
    assert IsDigit(d[0]);
    NatToDecimalValue(n);
  }

  lemma NegativeDecimalRoundTrip(n: nat)
    requires n > 0
    ensures ParseDecimal("-" + NatToDecimal(n)) == Some(-(n as int))
  {
    var d := NatToDecimal(n);
    assert ("-" + d)[1..] == d;
    NatToDecimalValue(n);
  }

  /** Different integers have different decimal texts. */
  lemma DecimalInjective(m: int, n: int)
    requires IntToDecimal(m) == IntToDecimal(n)
    ensures m == n
  {
    DecimalRoundTrip(m);
    DecimalRoundTrip(n);
  }

  // ---------------------------------------------------------------------
  // Hexadecimal text and padding
  // ---------------------------------------------------------------------

  const HexDigits: string := "0123456789abcdef"

  predicate IsLowerHex(c: char) {
    c in HexDigits
  }

  /** `n.toString(16)`: lowercase hexadecimal digits, without leading zeros. */
  function ToBase16(n: nat): (r: string)
    ensures |r| > 0 && forall k :: 0 <= k < |r| ==> IsLowerHex(r[k])
    ensures n < 16 <==> |r| == 1
  {
    if n < 16 then [HexDigits[n]] else ToBase16(n / 16) + [HexDigits[n % 16]]
  }

  /** `s.padStart(len, c)` with a one-character filler. */
  function PadStart(s: string, len: nat, c: char): (r: string)
    ensures |r| == if |s| >= len then |s| else len
    ensures r[|r| - |s|..] == s
    ensures forall k :: 0 <= k < |r| - |s| ==> r[k] == c
  {
    if |s| >= len then s else seq(len - |s|, _ => c) + s
  }
}
