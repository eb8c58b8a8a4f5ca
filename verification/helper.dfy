/** `validateEmail` from the client's helpers. */
module Helper {
  import opened JsText

  /** A character of the class `[^\s@]`. */
  predicate IsEmailChar(c: char) {
    !IsWhitespace(c) && c != '@'
  }

  predicate AllEmailChars(s: string) {
    forall i | 0 <= i < |s| :: IsEmailChar(s[i])
  }

  /** What the regular expression `^[^\s@]+@[^\s@]+\.[^\s@]+$` accepts: `s`
      splits at an `@` (position `i`) and a later `.` (position `j`) into three
      non-empty runs of `[^\s@]`. */
  ghost predicate MatchesEmailPattern(s: string) {
    exists i, j | 0 < i && i + 1 < j && j + 1 < |s| ::
      && s[i] == '@' && s[j] == '.'
      && AllEmailChars(s[..i]) && AllEmailChars(s[i + 1..j]) && AllEmailChars(s[j + 1..])
  }

  /** `s` matches the pattern when it splits at `i` and `j` as the pattern
      requires. */
  lemma PatternAt(s: string, i: nat, j: nat)
    requires 0 < i && i + 1 < j && j + 1 < |s| && s[i] == '@' && s[j] == '.'
    requires AllEmailChars(s[..i]) && AllEmailChars(s[i + 1..j]) && AllEmailChars(s[j + 1..])
    ensures MatchesEmailPattern(s)
  {
  }

  /** The number of occurrences of `c` in `s`. */
  function Count(s: string, c: char): (n: nat)
    ensures n <= |s|
    ensures n == 0 <==> c !in s
  {
    if |s| == 0 then 0 else (if s[0] == c then 1 else 0) + Count(s[1..], c)
  }

  /** The position of the first `c` in `s`, `|s|` when there is none. */
  function IndexOf(s: string, c: char): (k: nat)
    ensures k <= |s|
    ensures k < |s| ==> s[k] == c
    ensures forall i | 0 <= i < k :: s[i] != c
  {
    if |s| == 0 then 0 else if s[0] == c then 0 else 1 + IndexOf(s[1..], c)
  }

  /** The domain part has a `.` that is neither its first nor its last character. */
  predicate HasInnerDot(d: string) {
    exists p | 1 <= p < |d| - 1 :: d[p] == '.'
  }

  /** `validateEmail(email)`: no white space, exactly one `@`, a non-empty part
      before it, and a dot strictly inside the part after it. */
  predicate ValidateEmail(email: string) {
    && NoWhitespace(email)
    && Count(email, '@') == 1
    && var k := IndexOf(email, '@');
      0 < k < |email| && HasInnerDot(email[k + 1..])
  }

  lemma {:induction false} CountAppend(a: string, b: string, c: char)
    ensures Count(a + b, c) == Count(a, c) + Count(b, c)
  {
    if |a| > 0 {
      assert (a + b)[1..] == a[1..] + b;
      CountAppend(a[1..], b, c);
    } else {
      assert a + b == b;
    }
  }

  /** With a single `c` at position `k`, no other position holds `c`. */
  lemma OnlyOccurrence(s: string, c: char, k: nat)
    requires k < |s| && s[k] == c && Count(s, c) == 1
    ensures c !in s[..k] && c !in s[k + 1..]
  {
    assert s == s[..k] + [c] + s[k + 1..];
    CountAppend(s[..k] + [c], s[k + 1..], c);
    CountAppend(s[..k], [c], c);
  }

  /** `validateEmail` accepts exactly the strings the regular expression matches. */
  lemma ValidateEmailMatchesPattern(s: string)
    ensures ValidateEmail(s) <==> MatchesEmailPattern(s)
  {
    if ValidateEmail(s) {
      AcceptedMatchesPattern(s);
    }
    if MatchesEmailPattern(s) {
      PatternIsAccepted(s);
    }
  }

  lemma AcceptedMatchesPattern(s: string)
    requires ValidateEmail(s)
    ensures MatchesEmailPattern(s)
  {
    {
      var k := IndexOf(s, '@');
      var d := s[k + 1..];
      var p :| 1 <= p < |d| - 1 && d[p] == '.';
      var j := k + 1 + p;
      OnlyOccurrence(s, '@', k);
      assert s[j] == '.';
      forall m | 0 <= m < |s| && m != k
        ensures IsEmailChar(s[m])
      {
        if m < k {
          assert s[m] == s[..k][m];
        } else {
          assert s[m] == s[k + 1..][m - k - 1];
        }
      }
      assert AllEmailChars(s[..k]);
      assert AllEmailChars(s[k + 1..j]);
      assert AllEmailChars(s[j + 1..]);
    }
  }

  lemma PatternIsAccepted(s: string)
    requires MatchesEmailPattern(s)
    ensures ValidateEmail(s)
  {
    var i, j :| 0 < i && i + 1 < j && j + 1 < |s| && s[i] == '@' && s[j] == '.'
      && AllEmailChars(s[..i]) && AllEmailChars(s[i + 1..j]) && AllEmailChars(s[j + 1..]);
    PartsAreEmailChars(s, i, j);
    assert NoWhitespace(s);
    assert '@' !in s[..i] by {
      assert forall m | 0 <= m < i :: s[..i][m] == s[m];
    }
    assert '@' !in s[i + 1..] by {
      forall m | i + 1 <= m < |s|
        ensures s[i + 1..][m - i - 1] == s[m]
      {
      }
    }
    OnlyOccurrenceCounts(s, '@', i);
    FirstIndex(s, '@', i);
    assert s[i + 1..][j - i - 1] == '.';
  }

  /** Outside the `@` at `i` and the `.` at `j`, every character of a matching
      string is an email character. */
  lemma PartsAreEmailChars(s: string, i: nat, j: nat)
    requires i < j < |s|
    requires AllEmailChars(s[..i]) && AllEmailChars(s[i + 1..j]) && AllEmailChars(s[j + 1..])
    ensures forall m | 0 <= m < |s| && m != i && m != j :: IsEmailChar(s[m])
  {
    forall m | 0 <= m < |s| && m != i && m != j
      ensures IsEmailChar(s[m])
    {
      if m < i {
        assert s[m] == s[..i][m];
      } else if m < j {
        assert s[m] == s[i + 1..j][m - i - 1];
      } else {
        assert s[m] == s[j + 1..][m - j - 1];
      }
    }
  }

  /** A `c` at `k` with none before or after it is the only one. */
  lemma OnlyOccurrenceCounts(s: string, c: char, k: nat)
    requires k < |s| && s[k] == c && c !in s[..k] && c !in s[k + 1..]
    ensures Count(s, c) == 1
  {
    assert s == s[..k] + [c] + s[k + 1..];
    CountAppend(s[..k] + [c], s[k + 1..], c);
    CountAppend(s[..k], [c], c);
    assert [c][1..] == [];
  }

  /** A `c` at `i` with none before it is the first one. */
  lemma {:induction false} FirstIndex(s: string, c: char, i: nat)
    requires i < |s| && s[i] == c
    requires forall m | 0 <= m < i :: IsEmailChar(s[m])
    requires c == '@'
    ensures IndexOf(s, c) == i
  {
    if i > 0 {
      FirstIndex(s[1..], c, i - 1);
    }
  }

  /** The four facts an accepted address satisfies, each stated on its own. */
  lemma {:induction false} AcceptedEmailShape(s: string)
    requires ValidateEmail(s)
    ensures Count(s, '@') == 1
    ensures NoWhitespace(s)
    ensures exists k | 0 < k < |s| :: s[k] == '@' && '@' !in s[..k] && HasInnerDot(s[k + 1..])
  {
    var k := IndexOf(s, '@');
    assert '@' !in s[..k] by {
      assert forall m | 0 <= m < k :: s[..k][m] == s[m];
    }
  }
}
