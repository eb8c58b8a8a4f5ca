/** The JavaScript string built-ins the client relies on: `trim`, the regular
    expression class `\s`, `toLowerCase`, `startsWith`, `.length` and the
    decimal rendering of a number. */
module JsText {

  /** The ECMAScript WhiteSpace and LineTerminator code points: exactly the
      characters `String.prototype.trim` strips and the regular-expression
      class `\s` matches. */
  predicate IsWhitespace(c: char) {
    || c == '\t' || c == '\n' || c == '\U{000B}' || c == '\U{000C}' || c == '\r'
    || c == ' ' || c == '\U{00A0}' || c == '\U{1680}'
    || ('\U{2000}' <= c <= '\U{200A}')
    || c == '\U{2028}' || c == '\U{2029}' || c == '\U{202F}' || c == '\U{205F}'
    || c == '\U{3000}' || c == '\U{FEFF}'
  }

  predicate NoWhitespace(s: string) {
    forall i | 0 <= i < |s| :: !IsWhitespace(s[i])
  }

  predicate AllWhitespace(s: string) {
    forall i | 0 <= i < |s| :: IsWhitespace(s[i])
  }

  /** Neither the first nor the last character is white space. */
  predicate IsTrimmed(s: string) {
    |s| == 0 || (!IsWhitespace(s[0]) && !IsWhitespace(s[|s| - 1]))
  }

  /** The index of the first character at or after `i` that is not white
      space, `|s|` when there is none. */
  function SkipLeading(s: string, i: nat): (k: nat)
    requires i <= |s|
    ensures i <= k <= |s|
    ensures forall m | i <= m < k :: IsWhitespace(s[m])
    ensures k < |s| ==> !IsWhitespace(s[k])
    decreases |s| - i
  {
    if i < |s| && IsWhitespace(s[i]) then SkipLeading(s, i + 1) else i
  }

  /** The end of `s[lo..j]` once its trailing white space is dropped. */
  function SkipTrailing(s: string, lo: nat, j: nat): (e: nat)
    requires lo <= j <= |s|
    ensures lo <= e <= j
    ensures forall m | e <= m < j :: IsWhitespace(s[m])
    ensures e == lo || !IsWhitespace(s[e - 1])
    decreases j
  {
    if j > lo && IsWhitespace(s[j - 1]) then SkipTrailing(s, lo, j - 1) else j
  }

  /** `s.trim()`: `s` with its leading and trailing white space removed. */
  function Trim(s: string): (r: string)
    ensures IsTrimmed(r)
    ensures |r| <= |s|
  {
    var k := SkipLeading(s, 0);
    var e := SkipTrailing(s, k, |s|);
    if e == k then []
    else
      assert s[k..e][0] == s[k] && s[k..e][e - k - 1] == s[e - 1];
      s[k..e]
  }

  /** What `trim` removes is white space and what it keeps is a contiguous
      part of the input. */
  lemma TrimRemovesOnlyWhitespace(s: string)
    ensures exists i, j | 0 <= i <= j <= |s| ::
      && Trim(s) == s[i..j]
      && AllWhitespace(s[..i]) && AllWhitespace(s[j..])
  {
    var k := SkipLeading(s, 0);
    var e := SkipTrailing(s, k, |s|);
    assert AllWhitespace(s[..k]) by {
      assert forall m | 0 <= m < k :: s[..k][m] == s[m];
    }
    assert AllWhitespace(s[e..]) by {
      assert forall m | 0 <= m < |s| - e :: s[e..][m] == s[e + m];
    }
    assert Trim(s) == s[k..e];
  }

  /** A string that is already trimmed is left alone by `trim`. */
  lemma {:induction false} TrimOfTrimmed(s: string)
    requires IsTrimmed(s)
    ensures Trim(s) == s
  {
    var k := SkipLeading(s, 0);
    assert k == 0;
    var e := SkipTrailing(s, 0, |s|);
    assert e == |s|;
    assert s[0..|s|] == s;
  }

  /** `trim` is idempotent. */
  lemma TrimIdempotent(s: string)
    ensures Trim(Trim(s)) == Trim(s)
  {
    TrimOfTrimmed(Trim(s));
  }

  /** `s.trim() === ""` holds exactly when `s` is blank (empty or all white space). */
  lemma {:induction false} TrimEmptyIffBlank(s: string)
    ensures Trim(s) == [] <==> AllWhitespace(s)
  {
    var k := SkipLeading(s, 0);
    var e := SkipTrailing(s, k, |s|);
    if k < |s| {
      assert !IsWhitespace(s[k]);
      assert e > k;
      assert |s[k..e]| > 0;
    }
  }

  /** Trimming a trimmed string with white space on either side gives it back. */
  lemma TrimPadded(pre: string, t: string, post: string)
    requires AllWhitespace(pre) && AllWhitespace(post) && IsTrimmed(t)
    ensures Trim(pre + t + post) == t
  {
    var s := pre + t + post;
    if |t| == 0 {
      assert AllWhitespace(s) by {
        forall m | 0 <= m < |s|
          ensures IsWhitespace(s[m])
        {
          if m < |pre| {
            assert s[m] == pre[m];
          } else {
            assert s[m] == post[m - |pre|];
          }
        }
      }
      TrimEmptyIffBlank(s);
    } else {
      assert forall m | 0 <= m < |pre| :: s[m] == pre[m];
      assert s[|pre|] == t[0];
      var k := SkipLeading(s, 0);
      assert k == |pre|;
      var last := |pre| + |t|;
      assert forall m | last <= m < |s| :: s[m] == post[m - last];
      assert s[last - 1] == t[|t| - 1];
      var e := SkipTrailing(s, k, |s|);
      assert e == last;
      assert s[k..e] == t;
    }
  }

  /** A string with no white space at all is its own trim. */
  lemma NoWhitespaceIsTrimmed(s: string)
    requires NoWhitespace(s)
    ensures Trim(s) == s
  {
    TrimOfTrimmed(s);
  }

  /** `toLowerCase` on one character, for the ASCII letters. */
  function LowerChar(c: char): (r: char)
    ensures 'A' <= c <= 'Z' ==> 'a' <= r <= 'z'
    ensures !('A' <= c <= 'Z') ==> r == c
  {
    if 'A' <= c <= 'Z' then (c as int - 'A' as int + 'a' as int) as char else c
  }

  /** `s.toLowerCase()` (ASCII letters only). */
  function ToLower(s: string): (r: string)
    ensures |r| == |s|
    ensures forall i | 0 <= i < |s| :: r[i] == LowerChar(s[i])
    ensures forall i | 0 <= i < |r| :: !('A' <= r[i] <= 'Z')
  {
    seq(|s|, i requires 0 <= i < |s| => LowerChar(s[i]))
  }

  /** Lower-casing preserves white space and its absence. */
  lemma ToLowerKeepsWhitespace(s: string)
    ensures NoWhitespace(s) ==> NoWhitespace(ToLower(s))
  {
    forall i | 0 <= i < |s|
      ensures IsWhitespace(ToLower(s)[i]) == IsWhitespace(s[i])
    {
      assert ToLower(s)[i] == LowerChar(s[i]);
    }
  }

  predicate StartsWith(s: string, prefix: string) {
    |prefix| <= |s| && s[..|prefix|] == prefix
  }

  /** `s.length`: the number of UTF-16 code units, two for a code point
      outside the Basic Multilingual Plane. */
  function Utf16Length(s: string): (n: nat)
    ensures |s| <= n <= 2 * |s|
    ensures n == |s| <==> forall i | 0 <= i < |s| :: s[i] as int <= 0xFFFF
  {
    if |s| == 0 then 0
    else (if s[0] as int > 0xFFFF then 2 else 1) + Utf16Length(s[1..])
  }

  function DigitChar(d: nat): (c: char)
    requires d < 10
    ensures '0' <= c <= '9'
  {
    ('0' as int + d) as char
  }

  /** The decimal rendering of a natural number (what `${n}` and React produce). */
  function NatToString(n: nat): (s: string)
    ensures |s| >= 1
    ensures forall i | 0 <= i < |s| :: '0' <= s[i] <= '9'
    ensures n >= 10 ==> s[0] != '0'
  {
    if n < 10 then [DigitChar(n)] else NatToString(n / 10) + [DigitChar(n % 10)]
  }

  /** Reads a string of decimal digits back as a number; leading zeros are allowed. */
  function ParseDecimal(s: string): nat
    requires forall i | 0 <= i < |s| :: '0' <= s[i] <= '9'
  {
    if |s| == 0 then 0
    else 10 * ParseDecimal(s[..|s| - 1]) + (s[|s| - 1] as int - '0' as int)
  }

  /** Reading the decimal rendering gives the number back. */
  lemma {:induction false} ParseNatToString(n: nat)
    ensures ParseDecimal(NatToString(n)) == n
  {
    if n >= 10 {
      var s := NatToString(n);
      assert s[..|s| - 1] == NatToString(n / 10);
      ParseNatToString(n / 10);
    }
  }

  /** Leading zeros do not change the value read. */
  lemma {:induction false} ParseLeadingZero(s: string)
    requires forall i | 0 <= i < |s| :: '0' <= s[i] <= '9'
    ensures ParseDecimal("0" + s) == ParseDecimal(s)
  {
    if |s| > 0 {
      var t := "0" + s;
      assert t[..|t| - 1] == "0" + s[..|s| - 1];
      ParseLeadingZero(s[..|s| - 1]);
    } else {
      assert ("0" + s)[..0] == [];
    }
  }

  /** The rendering has one digit exactly for the numbers below ten. */
  lemma {:induction false} NatToStringLength(n: nat)
    ensures |NatToString(n)| == 1 <==> n < 10
    ensures 10 <= n < 100 ==> |NatToString(n)| == 2
  {
    if n >= 10 {
      NatToStringLength(n / 10);
    }
  }
}
