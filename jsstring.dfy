/**
 * The few pieces of JavaScript string behaviour the components depend on:
 * `String.prototype.trim`, `length` (counted in UTF-16 code units) and a
 * one-character upper-casing.
 */
module JsString {

  /**
   * The code points `trim` strips: ECMAScript WhiteSpace (tab, vertical tab,
   * form feed, space, no-break space, the zero-width no-break space U+FEFF and
   * the Unicode space separators) and LineTerminator (line feed, carriage
   * return, U+2028, U+2029).
   */
  predicate IsTrimmable(c: char)
  {
    || '\t' <= c <= '\r'
    || c == ' ' || c == '\U{00A0}' || c == '\U{1680}'
    || '\U{2000}' <= c <= '\U{200A}'
    || c == '\U{2028}' || c == '\U{2029}' || c == '\U{202F}'
    || c == '\U{205F}' || c == '\U{3000}' || c == '\U{FEFF}'
  }

  predicate AllTrimmable(s: string)
  {
    forall i :: 0 <= i < |s| ==> IsTrimmable(s[i])
  }

  /** How many characters `trimStart` drops: the length of the leading white space. */
  function LeadingSpace(s: string): (k: nat)
    ensures k <= |s|
    ensures forall i :: 0 <= i < k ==> IsTrimmable(s[i])
    ensures k < |s| ==> !IsTrimmable(s[k])
  {
    if s == [] || !IsTrimmable(s[0]) then 0
    else
      var k := LeadingSpace(s[1..]);
      assert forall i :: 0 <= i < k ==> s[1..][i] == s[i + 1];
      1 + k
  }

  /** How many characters `trimEnd` drops: the length of the trailing white space. */
  function TrailingSpace(s: string): (k: nat)
    ensures k <= |s|
    ensures forall i :: |s| - k <= i < |s| ==> IsTrimmable(s[i])
    ensures k < |s| ==> !IsTrimmable(s[|s| - 1 - k])
  {
    if s == [] || !IsTrimmable(s[|s| - 1]) then 0
    else
      var k := TrailingSpace(s[..|s| - 1]);
      assert forall i :: |s| - 1 - k <= i < |s| - 1 ==> s[..|s| - 1][i] == s[i];
      1 + k
  }

  /**
   * `s.trim()`, that is `trimEnd` after `trimStart`: the result is a slice of
   * `s` with only white space outside it, and a non-empty result neither
   * starts nor ends with white space.
   */
  function Trim(s: string): (r: string)
    ensures TrimmedAt(s, LeadingSpace(s), r)
    ensures r != [] ==> !IsTrimmable(r[0]) && !IsTrimmable(r[|r| - 1])
  {
    var a := LeadingSpace(s);
    TrailingSpaceOfSuffix(s, a);
    var b := TrailingSpace(s[a..]);
    TrimSlice(s, a, b);
    s[a..|s| - b]
  }

  lemma TrailingSpaceOfSuffix(s: string, a: nat)
    requires a <= |s|
    ensures var b := TrailingSpace(s[a..]);
      && (forall i :: |s| - b <= i < |s| ==> IsTrimmable(s[i]))
      && (b < |s| - a ==> !IsTrimmable(s[|s| - 1 - b]))
  {
    assert forall i :: a <= i < |s| ==> s[a..][i - a] == s[i];
  }

  lemma TrimSlice(s: string, a: nat, b: nat)
    requires a + b <= |s|
    requires forall i :: 0 <= i < a ==> IsTrimmable(s[i])
    requires forall i :: |s| - b <= i < |s| ==> IsTrimmable(s[i])
    requires a < |s| ==> !IsTrimmable(s[a])
    requires b < |s| - a ==> !IsTrimmable(s[|s| - 1 - b])
    ensures TrimmedAt(s, a, s[a..|s| - b])
    ensures var r := s[a..|s| - b]; r != [] ==> !IsTrimmable(r[0]) && !IsTrimmable(r[|r| - 1])
  {
  }

  /** `r` sits at offset `k` of `s`, with only white space before and after it. */
  predicate TrimmedAt(s: string, k: nat, r: string)
  {
    && k + |r| <= |s|
    && (forall i :: 0 <= i < |r| ==> r[i] == s[k + i])
    && (forall i :: 0 <= i < k ==> IsTrimmable(s[i]))
    && (forall i :: k + |r| <= i < |s| ==> IsTrimmable(s[i]))
  }

  /** Trimming yields the empty string exactly when the input is all white space. */
  lemma TrimEmptyIff(s: string)
    ensures Trim(s) == [] <==> AllTrimmable(s)
  {
    if Trim(s) == [] {
      assert TrimmedAt(s, LeadingSpace(s), []);
    }
  }

  /** Trimming twice is trimming once. */
  lemma TrimIdempotent(s: string)
    ensures Trim(Trim(s)) == Trim(s)
  {
    var r := Trim(s);
    if r != [] {
      assert LeadingSpace(r) == 0;
      assert TrailingSpace(r[0..]) == 0;
      assert r[0..][0..|r|] == r;
    }
  }

  /** Number of UTF-16 code units `c` takes: two above U+FFFF (a surrogate pair). */
  function CodeUnits(c: char): nat
  {
    if c as int > 0xFFFF then 2 else 1
  }

  /** `s.length` in JavaScript: the number of UTF-16 code units. */
  function Utf16Length(s: string): (n: nat)
    ensures |s| <= n <= 2 * |s|
  {
    if s == [] then 0 else CodeUnits(s[0]) + Utf16Length(s[1..])
  }

  /** On text within the Basic Multilingual Plane, the JavaScript length is the number of characters. */
  lemma {:induction false} Utf16LengthBmp(s: string)
    requires forall i :: 0 <= i < |s| ==> s[i] as int <= 0xFFFF
    ensures Utf16Length(s) == |s|
  {
    if s != [] {
      assert forall i :: 0 <= i < |s[1..]| ==> s[1..][i] == s[i + 1];
      Utf16LengthBmp(s[1..]);
    }
  }

  /** `c.toUpperCase()` for a single character, on the ASCII letters. */
  function ToUpperAscii(c: char): (u: char)
    ensures 'a' <= c <= 'z' ==> 'A' <= u <= 'Z' && u as int == c as int - 32
    ensures !('a' <= c <= 'z') ==> u == c
    ensures !('a' <= u <= 'z')
  {
    if 'a' <= c <= 'z' then (c as int - 32) as char else c
  }
}
