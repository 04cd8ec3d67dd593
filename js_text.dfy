/**
 * The JavaScript string operations that batch-code handling relies on:
 * the white-space class shared by the regular-expression escape `\s` and
 * `String.prototype.trim`, trimming, ASCII case mapping, and the batch-code
 * normalisation `code.trim().toUpperCase()` built from them.
 */
module JsText {

  /** ECMAScript WhiteSpace and LineTerminator code points: exactly what `\s`
      matches and what `trim` strips (space separators as of Unicode 6.3+). */
  predicate IsWhitespace(c: char) {
    || c == '\t' || c == '\n' || c == '\U{B}' || c == '\U{C}' || c == '\r'
    || c == ' ' || c == '\U{A0}' || c == '\U{1680}'
    || ('\U{2000}' <= c <= '\U{200A}')
    || c == '\U{2028}' || c == '\U{2029}' || c == '\U{202F}' || c == '\U{205F}'
    || c == '\U{3000}' || c == '\U{FEFF}'
  }

  predicate AllWhitespace(s: string) {
    forall i :: 0 <= i < |s| ==> IsWhitespace(s[i])
  }

  /** Neither end of `s` is white space: `trim` would leave `s` alone. */
  predicate Trimmed(s: string) {
    s == [] || (!IsWhitespace(s[0]) && !IsWhitespace(s[|s| - 1]))
  }

  /** How many white-space characters `trim` strips from the front of `s`. */
  function Lead(s: string): (n: nat)
    ensures n <= |s|
  {
    if s != [] && IsWhitespace(s[0]) then 1 + Lead(s[1..]) else 0
  }

  /** How many white-space characters `trim` strips from the back of `s`. */
  function Trail(s: string): (n: nat)
    ensures n <= |s|
  {
    if s != [] && IsWhitespace(s[|s| - 1]) then 1 + Trail(s[..|s| - 1]) else 0
  }

  /** `String.prototype.trim`: the white-space run at each end removed. */
  function Trim(s: string): string {
    var t := s[Lead(s)..];
    t[..|t| - Trail(t)]
  }

  /** The front run is white space and stops at the first other character. */
  lemma {:induction false} LeadStopsAtText(s: string)
    ensures forall k :: 0 <= k < Lead(s) ==> IsWhitespace(s[k])
    ensures Lead(s) < |s| ==> !IsWhitespace(s[Lead(s)])
  {
    if s != [] && IsWhitespace(s[0]) {
      var u := s[1..];
      LeadStopsAtText(u);
      forall k | 1 <= k < Lead(s) ensures IsWhitespace(s[k]) {
        assert s[k] == u[k - 1];
      }
      assert Lead(s) < |s| ==> s[Lead(s)] == u[Lead(u)];
    }
  }

  /** The back run is white space and stops at the last other character. */
  lemma {:induction false} TrailStopsAtText(s: string)
    ensures forall k :: |s| - Trail(s) <= k < |s| ==> IsWhitespace(s[k])
    ensures Trail(s) < |s| ==> !IsWhitespace(s[|s| - 1 - Trail(s)])
  {
    if s != [] && IsWhitespace(s[|s| - 1]) {
      var u := s[..|s| - 1];
      TrailStopsAtText(u);
      forall k | |s| - Trail(s) <= k < |s| - 1 ensures IsWhitespace(s[k]) {
        assert s[k] == u[k];
      }
      assert Trail(s) < |s| ==> s[|s| - 1 - Trail(s)] == u[|u| - 1 - Trail(u)];
    }
  }

  /** `r` is what `trim` leaves of `s` when it strips `i` characters from
      the front: a trimmed slice of `s` starting at `i`, with white space
      only before and after it. */
  predicate TrimsTo(s: string, i: nat, r: string) {
    && i + |r| <= |s| && r == s[i..i + |r|] && Trimmed(r)
    && AllWhitespace(s[..i]) && AllWhitespace(s[i + |r|..])
  }

  /** What `trim` returns: the slice after the front run, trimmed at both
      ends, with only white space cut away on either side. */
  lemma TrimSpec(s: string)
    ensures TrimsTo(s, Lead(s), Trim(s))
  {
    var i := Lead(s);
    var t := s[i..];
    LeadStopsAtText(s);
    TrailStopsAtText(t);
    CutBothEnds(s, i, t, Trail(t));
  }

  /** Cutting a white-space run of length `i` off the front of `s` and one
      of length `j` off the back of the rest leaves a trimmed slice. */
  lemma CutBothEnds(s: string, i: nat, t: string, j: nat)
    requires i <= |s| && t == s[i..] && j <= |t|
    requires forall k :: 0 <= k < i ==> IsWhitespace(s[k])
    requires i < |s| ==> !IsWhitespace(s[i])
    requires forall k :: |t| - j <= k < |t| ==> IsWhitespace(t[k])
    requires j < |t| ==> !IsWhitespace(t[|t| - 1 - j])
    ensures TrimsTo(s, i, t[..|t| - j])
  {
    var r := t[..|t| - j];
    assert r == s[i..i + |r|];
    assert r != [] ==> r[0] == s[i] && r[|r| - 1] == t[|t| - 1 - j];
    var tail := s[i + |r|..];
    assert AllWhitespace(tail) by {
      forall k | 0 <= k < |tail| ensures IsWhitespace(tail[k]) {
        assert tail[k] == t[|t| - j + k];
      }
    }
  }

  lemma {:induction false} LeadSkips(a: string, t: string)
    requires AllWhitespace(a) && (t == [] || !IsWhitespace(t[0]))
    ensures Lead(a + t) == |a|
  {
    if a == [] {
      assert a + t == t;
    } else {
      assert (a + t)[0] == a[0];
      assert (a + t)[1..] == a[1..] + t;
      LeadSkips(a[1..], t);
    }
  }

  lemma {:induction false} TrailSkips(t: string, b: string)
    requires AllWhitespace(b) && (t == [] || !IsWhitespace(t[|t| - 1]))
    ensures Trail(t + b) == |b|
  {
    if b == [] {
      assert t + b == t;
    } else {
      assert (t + b)[|t + b| - 1] == b[|b| - 1];
      assert (t + b)[..|t + b| - 1] == t + b[..|b| - 1];
      TrailSkips(t, b[..|b| - 1]);
    }
  }

  /** `trim` is determined by its specification: whatever trimmed text is
      padded with white space on both sides, trimming recovers it. */
  lemma TrimUnique(a: string, m: string, b: string)
    requires AllWhitespace(a) && Trimmed(m) && AllWhitespace(b)
    ensures Trim(a + m + b) == m
  {
    var s := a + m + b;
    if m == [] {
      assert s == (a + b) + [];
      assert AllWhitespace(a + b) by {
        forall i | 0 <= i < |a + b| ensures IsWhitespace((a + b)[i]) {
          if i >= |a| { assert (a + b)[i] == b[i - |a|]; }
        }
      }
      LeadSkips(a + b, []);
    } else {
      assert s == a + (m + b);
      LeadSkips(a, m + b);
      assert s[|a|..] == m + b;
      TrailSkips(m, b);
      assert (m + b)[..|m|] == m;
    }
  }

  /** Trimming twice is trimming once. */
  lemma TrimIdempotent(s: string)
    ensures Trim(Trim(s)) == Trim(s)
  {
    var r := Trim(s);
    TrimSpec(s);
    assert [] + r + [] == r;
    TrimUnique([], r, []);
  }

  lemma AllWhitespaceConcat(x: string, y: string)
    requires AllWhitespace(x) && AllWhitespace(y)
    ensures AllWhitespace(x + y)
  {
    forall k | 0 <= k < |x + y| ensures IsWhitespace((x + y)[k]) {
      if k >= |x| { assert (x + y)[k] == y[k - |x|]; }
    }
  }

  /** `s` is its stripped head, its trimmed form and its stripped tail. */
  lemma TrimSplits(s: string)
    ensures s == s[..Lead(s)] + Trim(s) + s[Lead(s) + |Trim(s)|..]
  {
    var i, r := Lead(s), Trim(s);
    TrimSpec(s);
    SliceSplit(s, i, i + |r|);
  }

  /** Cutting `s` at two positions and gluing the pieces gives `s` back. */
  lemma SliceSplit(s: string, i: nat, j: nat)
    requires i <= j <= |s|
    ensures s == s[..i] + s[i..j] + s[j..]
  {
    var u := s[..i] + s[i..j] + s[j..];
    forall k | 0 <= k < |s| ensures u[k] == s[k] {
      if k < i { assert u[k] == s[..i][k]; }
      else if k < j { assert u[k] == s[i..j][k - i]; }
      else { assert u[k] == s[j..][k - j]; }
    }
  }

  /** Regrouping five pieces. */
  lemma Regroup(a: string, h: string, r: string, t: string, b: string)
    ensures a + (h + r + t) + b == (a + h) + r + (t + b)
  {
  }

  /** Extra white space around `s` does not change its trimmed form. */
  lemma TrimIgnoresPadding(a: string, s: string, b: string)
    requires AllWhitespace(a) && AllWhitespace(b)
    ensures Trim(a + s + b) == Trim(s)
  {
    var r, i := Trim(s), Lead(s);
    var head, tail := s[..i], s[i + |r|..];
    TrimSpec(s);
    TrimSplits(s);
    Regroup(a, head, r, tail, b);
    AllWhitespaceConcat(a, head);
    AllWhitespaceConcat(tail, b);
    TrimUnique(a + head, r, tail + b);
  }

  /** Applies `f` to every character. */
  function MapChars(f: char -> char, s: string): string {
    seq(|s|, i requires 0 <= i < |s| => f(s[i]))
  }

  lemma MapCharsConcat(f: char -> char, x: string, y: string)
    ensures MapChars(f, x + y) == MapChars(f, x) + MapChars(f, y)
  {
    var l, r := MapChars(f, x + y), MapChars(f, x) + MapChars(f, y);
    assert |l| == |r|;
    forall k | 0 <= k < |l| ensures l[k] == r[k] {
      if k < |x| { assert (x + y)[k] == x[k]; } else { assert (x + y)[k] == y[k - |x|]; }
    }
  }

  /** `f` sends white space to white space and nothing else to white space. */
  predicate KeepsWhitespace(f: char -> char) {
    forall c :: IsWhitespace(f(c)) <==> IsWhitespace(c)
  }

  lemma MapKeepsWhitespace(f: char -> char, s: string)
    requires KeepsWhitespace(f)
    ensures AllWhitespace(MapChars(f, s)) <==> AllWhitespace(s)
    ensures Trimmed(MapChars(f, s)) <==> Trimmed(s)
  {
    var m := MapChars(f, s);
    if s != [] {
      assert IsWhitespace(m[0]) <==> IsWhitespace(s[0]);
      assert IsWhitespace(m[|m| - 1]) <==> IsWhitespace(s[|s| - 1]);
    }
    assert forall k :: 0 <= k < |s| ==> (IsWhitespace(m[k]) <==> IsWhitespace(s[k]));
  }

  /** A character map that keeps white space commutes with `trim`. */
  lemma TrimCommutes(f: char -> char, s: string)
    requires KeepsWhitespace(f)
    ensures Trim(MapChars(f, s)) == MapChars(f, Trim(s))
  {
    var r, i := Trim(s), Lead(s);
    var head, tail := s[..i], s[i + |r|..];
    TrimSpec(s);
    TrimSplits(s);
    MapCharsConcat(f, head + r, tail);
    MapCharsConcat(f, head, r);
    MapKeepsWhitespace(f, head);
    MapKeepsWhitespace(f, r);
    MapKeepsWhitespace(f, tail);
    TrimUnique(MapChars(f, head), MapChars(f, r), MapChars(f, tail));
  }

  /** ASCII-only `toUpperCase` on one character: no lower-case ASCII
      letter survives, the upper-case letters are exactly the images of the
      ASCII letters, and white space is kept. */
  function UpperChar(c: char): (u: char)
    ensures !('a' <= u <= 'z')
    ensures ('A' <= u <= 'Z') <==> ('a' <= c <= 'z' || 'A' <= c <= 'Z')
    ensures IsWhitespace(u) <==> IsWhitespace(c)
  {
    if 'a' <= c <= 'z' then (c as int - 32) as char else c
  }

  /** ASCII-only `toLowerCase` on one character: no upper-case ASCII
      letter survives, the lower-case letters are exactly the images of the
      ASCII letters, and white space is kept. */
  function LowerChar(c: char): (l: char)
    ensures !('A' <= l <= 'Z')
    ensures ('a' <= l <= 'z') <==> ('a' <= c <= 'z' || 'A' <= c <= 'Z')
    ensures IsWhitespace(l) <==> IsWhitespace(c)
  {
    if 'A' <= c <= 'Z' then (c as int + 32) as char else c
  }

  /** `String.prototype.toUpperCase`, restricted to ASCII letters. */
  function ToUpper(s: string): string {
    MapChars(UpperChar, s)
  }

  /** `String.prototype.toLowerCase`, restricted to ASCII letters. */
  function ToLower(s: string): string {
    MapChars(LowerChar, s)
  }

  predicate NoLowerAscii(s: string) {
    forall i :: 0 <= i < |s| ==> !('a' <= s[i] <= 'z')
  }

  /** A batch code as the lookup sees it: `code.trim().toUpperCase()`.
      The result is trimmed and holds no lower-case ASCII letter. */
  function Normalise(code: string): (n: string)
    ensures Trimmed(n) && NoLowerAscii(n)
    ensures |n| <= |code|
  {
    var t := Trim(code);
    TrimSpec(code);
    CaseMapsKeepWhitespace();
    MapKeepsWhitespace(UpperChar, t);
    ToUpper(t)
  }

  /** The normalised codes are exactly the trimmed strings with no lower-case
      ASCII letter: those, and only those, are left unchanged. */
  lemma NormalisedIffFixed(code: string)
    ensures Normalise(code) == code <==> Trimmed(code) && NoLowerAscii(code)
  {
    if Trimmed(code) && NoLowerAscii(code) {
      assert [] + code + [] == code;
      TrimUnique([], code, []);
      assert forall k :: 0 <= k < |code| ==> ToUpper(code)[k] == UpperChar(code[k]);
      assert ToUpper(code) == code;
    }
  }

  /** Normalising twice is normalising once. */
  lemma NormaliseIdempotent(code: string)
    ensures Normalise(Normalise(code)) == Normalise(code)
  {
    NormalisedIffFixed(Normalise(code));
  }

  lemma CaseMapsKeepWhitespace()
    ensures KeepsWhitespace(LowerChar) && KeepsWhitespace(UpperChar)
  {
    forall c: char ensures IsWhitespace(LowerChar(c)) <==> IsWhitespace(c) {
      if 'A' <= c <= 'Z' { assert 'a' <= LowerChar(c) <= 'z'; }
    }
    forall c: char ensures IsWhitespace(UpperChar(c)) <==> IsWhitespace(c) {
      if 'a' <= c <= 'z' { assert 'A' <= UpperChar(c) <= 'Z'; }
    }
  }

  lemma UpperAbsorbsCase(t: string)
    ensures ToUpper(ToLower(t)) == ToUpper(t)
    ensures ToUpper(ToUpper(t)) == ToUpper(t)
  {
    assert forall k :: 0 <= k < |t| ==> UpperChar(LowerChar(t[k])) == UpperChar(t[k]);
    assert forall k :: 0 <= k < |t| ==> UpperChar(UpperChar(t[k])) == UpperChar(t[k]);
  }

  /** Normalisation ignores the case of ASCII letters. */
  lemma NormaliseIgnoresCase(code: string)
    ensures Normalise(ToLower(code)) == Normalise(code)
    ensures Normalise(ToUpper(code)) == Normalise(code)
  {
    CaseMapsKeepWhitespace();
    TrimCommutes(LowerChar, code);
    TrimCommutes(UpperChar, code);
    UpperAbsorbsCase(Trim(code));
  }

  /** Normalisation ignores white space around the code. */
  lemma NormaliseIgnoresPadding(a: string, code: string, b: string)
    requires AllWhitespace(a) && AllWhitespace(b)
    ensures Normalise(a + code + b) == Normalise(code)
  {
    TrimIgnoresPadding(a, code, b);
  }
}
