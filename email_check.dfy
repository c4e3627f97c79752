/**
 * `isValidEmail` of lib/supabase.ts: the pattern `^[^\s@]+@[^\s@]+\.[^\s@]+$`
 * stated as a predicate over the places its `@` and `.` can match, and a
 * direct check proved equivalent to it.
 */
module EmailCheck {
  import JsText

  /** What `[^\s@]+` matches: one or more characters, none white space or `@`. */
  predicate Segment(t: string) {
    |t| > 0 && JsText.NoWhitespace(t) && '@' !in t
  }

  /** The pattern matches `s` with its `@` at `i` and its `\.` at `j`. */
  predicate MatchesAt(s: string, i: int, j: int) {
    && 0 <= i < j < |s|
    && s[i] == '@' && s[j] == '.'
    && Segment(s[..i]) && Segment(s[i + 1..j]) && Segment(s[j + 1..])
  }

  /** The regular expression's verdict: some placement of `@` and `.` matches. */
  ghost predicate MatchesPattern(s: string) {
    exists i, j :: MatchesAt(s, i, j)
  }

  /** The domain has a `.` with at least one character on each side. */
  predicate HasInnerDot(d: string) {
    |d| >= 3 && '.' in d[1..|d| - 1]
  }

  /**
   * The check: no white space, a non-empty local part before the first `@`,
   * no second `@`, and a domain with an inner dot.
   */
  function IsValidEmail(s: string): (ok: bool)
    ensures ok ==> JsText.NoWhitespace(s) && '@' in s
  {
    var i := JsText.IndexOf(s, '@');
    && JsText.NoWhitespace(s)
    && 0 < i < |s|
    && '@' !in s[i + 1..]
    && HasInnerDot(s[i + 1..])
  }

  lemma NoWhitespaceSlice(s: string, a: nat, b: nat)
    requires a <= b <= |s| && JsText.NoWhitespace(s)
    ensures JsText.NoWhitespace(s[a..b])
  {
    forall n | 0 <= n < b - a ensures !JsText.IsWhitespace(s[a..b][n]) {
      assert s[a..b][n] == s[a + n];
    }
  }

  /** Split at its first `@`, an address passes exactly when its local part is non-empty and its domain has no `@` and an inner dot. */
  lemma ValidAtSplit(local: string, d: string)
    requires '@' !in local
    ensures IsValidEmail(local + ['@'] + d) <==>
      JsText.NoWhitespace(local + ['@'] + d) && local != [] && '@' !in d && HasInnerDot(d)
  {
    var s := local + ['@'] + d;
    JsText.BeforeFirstSplit(local, '@', d);
    assert JsText.IndexOf(s, '@') == |local|;
    assert s[|local| + 1..] == d;
  }

  /** Every address the check accepts matches the pattern. */
  lemma CheckedMatches(s: string)
    requires IsValidEmail(s)
    ensures MatchesPattern(s)
  {
    var i := JsText.IndexOf(s, '@');
    var d := s[i + 1..];
    var inner := d[1..|d| - 1];
    var k := JsText.IndexOf(inner, '.');
    var j := i + 2 + k;
    assert s[j] == inner[k] == '.';
    NoWhitespaceSlice(s, 0, i);
    NoWhitespaceSlice(s, i + 1, j);
    NoWhitespaceSlice(s, j + 1, |s|);
    assert s[i + 1..j] == d[..1 + k];
    assert s[j + 1..] == d[2 + k..];
    assert MatchesAt(s, i, j);
  }

  /** Every address the pattern matches passes the check. */
  lemma MatchesChecked(s: string, i: int, j: int)
    requires MatchesAt(s, i, j)
    ensures IsValidEmail(s)
  {
    var local, d := s[..i], s[i + 1..];
    var mid, tail := s[i + 1..j], s[j + 1..];
    assert s == local + ['@'] + d;
    assert d == mid + ['.'] + tail;
    ValidAtSplit(local, d);
    NoWhitespaceJoin(mid, '.', tail);
    NoWhitespaceJoin(local, '@', d);
    assert '@' !in d;
    assert d[1..|d| - 1][j - i - 2] == '.';
  }

  /** Joining two strings without white space by a character that is not white space leaves none. */
  lemma NoWhitespaceJoin(a: string, c: char, b: string)
    requires JsText.NoWhitespace(a) && !JsText.IsWhitespace(c) && JsText.NoWhitespace(b)
    ensures JsText.NoWhitespace(a + [c] + b)
  {
    var s := a + [c] + b;
    forall n | 0 <= n < |s| ensures !JsText.IsWhitespace(s[n]) {
      if n < |a| { assert s[n] == a[n]; }
      else if n > |a| { assert s[n] == b[n - |a| - 1]; }
    }
  }

  /** The check accepts exactly the addresses the pattern matches. */
  lemma IsValidEmailIff(s: string)
    ensures IsValidEmail(s) <==> MatchesPattern(s)
  {
    if IsValidEmail(s) {
      CheckedMatches(s);
    }
    if MatchesPattern(s) {
      var i, j :| MatchesAt(s, i, j);
      MatchesChecked(s, i, j);
    }
  }

  /** A valid address has exactly one `@`, with something before it. */
  lemma ValidHasOneAt(s: string)
    requires IsValidEmail(s)
    ensures exists i :: 0 < i < |s| && s[i] == '@' && '@' !in s[..i] && '@' !in s[i + 1..]
  {
    var i := JsText.IndexOf(s, '@');
    assert '@' !in s[..i];
  }

  /** An ordinary address passes. */
  lemma AcceptsOrdinary()
    ensures IsValidEmail("ola@skjaer.no")
  {
    var s := "ola@skjaer.no";
    assert s[..3] == "ola" && s[4..10] == "skjaer" && s[11..] == "no";
    MatchesChecked(s, 3, 10);
  }

  /** A domain whose only dot is its last character fails, whatever the local part. */
  lemma RejectsTrailingDot(local: string, d: string)
    requires '@' !in local
    requires d != [] && d[|d| - 1] == '.' && '.' !in d[..|d| - 1]
    ensures !IsValidEmail(local + ['@'] + d)
  {
    ValidAtSplit(local, d);
    if |d| >= 3 {
      assert d[1..|d| - 1] == d[..|d| - 1][1..];
    }
  }

  /** A domain whose only dot is its first character fails, whatever the local part. */
  lemma RejectsLeadingDot(local: string, d: string)
    requires '@' !in local
    requires d != [] && d[0] == '.' && '.' !in d[1..]
    ensures !IsValidEmail(local + ['@'] + d)
  {
    ValidAtSplit(local, d);
    if |d| >= 3 {
      assert d[1..|d| - 1] == d[1..][..|d| - 2];
    }
  }

  /** An address that starts with its `@` fails. */
  lemma RejectsEmptyLocal(d: string)
    ensures !IsValidEmail(['@'] + d)
  {
    ValidAtSplit([], d);
    assert [] + ['@'] + d == ['@'] + d;
  }

  /** White space anywhere fails. */
  lemma RejectsWhitespace()
    ensures !IsValidEmail("ola nordmann@skjaer.no")
  {
    assert JsText.IsWhitespace("ola nordmann@skjaer.no"[3]);
  }
}
