/**
 * The two field formats that both rule sets test, written as character
 * predicates: the Indian mobile pattern `^[6-9]\d{9}$` and the email pattern
 * `^[^\s@]+@[^\s@]+\.[^\s@]+$`. `\d` is `[0-9]` (no `u` flag) and `$` matches
 * only at the end of the text (no `m` flag).
 */
module InputFormats {
  import opened JsText

  predicate IsDigit(c: char) {
    '0' <= c <= '9'
  }

  /** `^[6-9]\d{9}$`: exactly ten decimal digits, the first one 6, 7, 8 or 9. */
  predicate IsValidMobile(s: string) {
    |s| == 10 && '6' <= s[0] <= '9' && forall i :: 1 <= i < 10 ==> IsDigit(s[i])
  }

  /** One run of `[^\s@]+`: non-empty, no white space, no `@`. */
  predicate IsEmailPart(t: string) {
    |t| > 0 && forall i :: 0 <= i < |t| ==> !IsWhitespace(t[i]) && t[i] != '@'
  }

  /** The language of `^[^\s@]+@[^\s@]+\.[^\s@]+$`, read off the pattern: the
      text splits at an `@` and a later `.` into three runs of `[^\s@]+`. */
  ghost predicate MatchesEmailPattern(s: string) {
    exists at, dot :: 0 <= at < dot < |s| && s[at] == '@' && s[dot] == '.'
      && IsEmailPart(s[..at]) && IsEmailPart(s[at + 1..dot]) && IsEmailPart(s[dot + 1..])
  }

  /** Position of the first `c` in `s`, or `|s|` when there is none. */
  function IndexOf(s: string, c: char): (k: nat)
    ensures k <= |s|
    ensures k < |s| ==> s[k] == c
    ensures c !in s[..k]
  {
    if s == [] then 0
    else if s[0] == c then 0
    else
      var k := IndexOf(s[1..], c);
      assert s[..k + 1] == [s[0]] + s[1..][..k];
      1 + k
  }

  /** `d` has a `.` that is neither its first nor its last character. */
  predicate HasInnerDot(d: string) {
    |d| >= 3 && '.' in d[1..|d| - 1]
  }

  /** The email test as a scan: no white space anywhere, a first `@` with text
      before it, no second `@`, and a `.` strictly inside the text after it. */
  predicate IsValidEmail(s: string) {
    var at := IndexOf(s, '@');
    && (forall i :: 0 <= i < |s| ==> !IsWhitespace(s[i]))
    && 0 < at < |s|
    && '@' !in s[at + 1..]
    && HasInnerDot(s[at + 1..])
  }

  /** The scan accepts exactly the texts the email pattern matches. */
  lemma EmailCheckMatchesPattern(s: string)
    ensures IsValidEmail(s) <==> MatchesEmailPattern(s)
  {
    if IsValidEmail(s) {
      ValidEmailMatches(s);
    }
    if MatchesEmailPattern(s) {
      var at, dot :| 0 <= at < dot < |s| && s[at] == '@' && s[dot] == '.'
        && IsEmailPart(s[..at]) && IsEmailPart(s[at + 1..dot]) && IsEmailPart(s[dot + 1..]);
      MatchingEmailIsValid(s, at, dot);
    }
  }

  lemma ValidEmailMatches(s: string)
    requires IsValidEmail(s)
    ensures MatchesEmailPattern(s)
  {
    var at := IndexOf(s, '@');
    var d := s[at + 1..];
    var j :| 0 <= j < |d| - 2 && d[1..|d| - 1][j] == '.';
    var dot := at + 2 + j;
    assert s[dot] == '.';
    assert s[at + 1..dot] == d[..1 + j];
    assert s[dot + 1..] == d[2 + j..];
    assert IsEmailPart(s[..at]) by {
      forall i | 0 <= i < at ensures !IsWhitespace(s[..at][i]) && s[..at][i] != '@' {
        assert s[..at][i] == s[i];
      }
    }
    var domain, tld := s[at + 1..dot], s[dot + 1..];
    assert IsEmailPart(domain) by {
      forall i | 0 <= i < |domain| ensures !IsWhitespace(domain[i]) && domain[i] != '@' {
        assert domain[i] == s[at + 1 + i] == d[i];
      }
    }
    assert IsEmailPart(tld) by {
      forall i | 0 <= i < |tld| ensures !IsWhitespace(tld[i]) && tld[i] != '@' {
        assert tld[i] == s[dot + 1 + i] == d[2 + j + i];
      }
    }
  }

  lemma MatchingEmailIsValid(s: string, at: nat, dot: nat)
    requires at < dot < |s| && s[at] == '@' && s[dot] == '.'
    requires IsEmailPart(s[..at]) && IsEmailPart(s[at + 1..dot]) && IsEmailPart(s[dot + 1..])
    ensures IsValidEmail(s)
  {
    var k := IndexOf(s, '@');
    assert k == at;
    forall i | 0 <= i < |s| ensures !IsWhitespace(s[i]) {
      if i < at {
        assert s[i] == s[..at][i];
      } else if at < i < dot {
        assert s[i] == s[at + 1..dot][i - at - 1];
      } else if dot < i {
        assert s[i] == s[dot + 1..][i - dot - 1];
      }
    }
    var d := s[at + 1..];
    forall i | 0 <= i < |d| ensures d[i] != '@' {
      if at + 1 + i < dot {
        assert d[i] == s[at + 1..dot][i];
      } else if at + 1 + i > dot {
        assert d[i] == s[dot + 1..][at + i - dot];
      }
    }
    assert d[1..|d| - 1][dot - at - 2] == '.';
  }
}
