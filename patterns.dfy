/**
 * The few regular expressions the log scanners and maintenance scripts apply, each of the shape
 * "a fixed lead, then a greedy run of one character class, then optionally one closing
 * character", matched leftmost as `String.prototype.match` does. Where the class excludes the
 * closing character, greedy matching with backtracking has exactly one candidate run at each
 * position, which is what these functions compute.
 */
module Patterns {
  import opened Base
  import opened Strings

  /** What an unescaped `.` matches: any character but a line terminator. */
  predicate AnyChar(c: char)
  {
    c != '\n' && c != '\r' && c != '\U{2028}' && c != '\U{2029}'
  }

  /** `\w`: an ASCII letter or digit, or `_`. */
  predicate IsWordChar(c: char)
  {
    'a' <= c <= 'z' || 'A' <= c <= 'Z' || IsDigit(c) || c == '_'
  }

  /** The length of the longest prefix of `s` in the class. */
  function Span(s: String, cls: char -> bool): (n: nat)
    ensures n <= |s|
    ensures forall i :: 0 <= i < n ==> cls(s[i])
    ensures n == |s| || !cls(s[n])
  {
    if |s| == 0 || !cls(s[0]) then 0 else 1 + Span(s[1..], cls)
  }

  /** A run of class characters followed by something outside the class is spanned exactly. */
  lemma {:induction false} SpanOf(run: String, rest: String, cls: char -> bool)
    requires forall i :: 0 <= i < |run| ==> cls(run[i])
    requires |rest| == 0 || !cls(rest[0])
    ensures Span(run + rest, cls) == |run|
  {
    if |run| > 0 {
      assert (run + rest)[1..] == run[1..] + rest;
      SpanOf(run[1..], rest, cls);
    } else {
      assert run + rest == rest;
    }
  }

  /**
   * The capture of `lead(cls+)close` at position `i`: the longest run of class characters right
   * after `lead`, provided it is not empty and, when `close` is given, that character follows it.
   */
  function MatchAt(s: String, i: nat, lead: String, cls: char -> bool, close: Option<char>): Option<String>
    requires i <= |s|
  {
    if !StartsWith(s[i..], lead) then None
    else
      var rest := s[i + |lead|..];
      var n := Span(rest, cls);
      if n == 0 then None
      else if close.Some? && (n == |rest| || rest[n] != close.value) then None
      else Some(rest[..n])
  }

  /** The leftmost match at position `i` or after. */
  function FirstFrom(s: String, i: nat, lead: String, cls: char -> bool, close: Option<char>): (r: Option<String>)
    requires i <= |s|
    ensures r.Some? ==> exists k :: i <= k <= |s| && MatchAt(s, k, lead, cls, close) == r
    ensures r.None? ==> forall k :: i <= k <= |s| ==> MatchAt(s, k, lead, cls, close).None?
    decreases |s| - i
  {
    var m := MatchAt(s, i, lead, cls, close);
    if m.Some? || i == |s| then m else FirstFrom(s, i + 1, lead, cls, close)
  }

  /** `s.match(/lead(cls+)close/)`, as the first group, or `None` for `null`. */
  function Capture(s: String, lead: String, cls: char -> bool, close: Option<char>): Option<String>
  {
    FirstFrom(s, 0, lead, cls, close)
  }

  /**
   * A capture is a non-empty run of the class that occurs in the text right after the lead and,
   * when one is required, right before the closing character.
   */
  lemma CaptureSound(s: String, lead: String, cls: char -> bool, close: Option<char>)
    requires Capture(s, lead, cls, close).Some?
    ensures var c := Capture(s, lead, cls, close).value;
            |c| > 0 && (forall j :: 0 <= j < |c| ==> cls(c[j]))
            && Contains(s, lead + c + (if close.Some? then [close.value] else []))
  {
    var k := CaptureAt(s, lead, cls, close);
    MatchAtSound(s, k, lead, cls, close);
  }

  /** Where the capture was found. */
  lemma CaptureAt(s: String, lead: String, cls: char -> bool, close: Option<char>) returns (k: nat)
    requires Capture(s, lead, cls, close).Some?
    ensures k <= |s| && MatchAt(s, k, lead, cls, close) == Capture(s, lead, cls, close)
  {
    k :| 0 <= k <= |s| && MatchAt(s, k, lead, cls, close) == Capture(s, lead, cls, close);
  }

  /** A match at `k` is a non-empty run of the class lying between the lead and the closing character. */
  lemma MatchAtSound(s: String, k: nat, lead: String, cls: char -> bool, close: Option<char>)
    requires k <= |s| && MatchAt(s, k, lead, cls, close).Some?
    ensures var c := MatchAt(s, k, lead, cls, close).value;
            |c| > 0 && (forall j :: 0 <= j < |c| ==> cls(c[j]))
            && OccursAt(s, lead + c + (if close.Some? then [close.value] else []), k)
  {
    var c := MatchAt(s, k, lead, cls, close).value;
    var t := if close.Some? then [close.value] else [];
    var rest := s[k + |lead|..];
    assert s[k..k + |lead|] == lead;
    assert rest[..|c|] == c;
    assert rest[..|c| + |t|] == c + t;
    assert s[k..k + |lead| + |c| + |t|] == s[k..k + |lead|] + rest[..|c| + |t|];
  }

  /** The match at a position depends only on the text from there on. */
  lemma MatchAtShift(s: String, i: nat, lead: String, cls: char -> bool, close: Option<char>)
    requires i <= |s|
    ensures MatchAt(s, i, lead, cls, close) == MatchAt(s[i..], 0, lead, cls, close)
  {
    assert s[i..][0..] == s[i..];
    if StartsWith(s[i..], lead) {
      assert s[i..][|lead|..] == s[i + |lead|..];
    }
  }

  /**
   * A text that starts with the lead, a non-empty run of the class and then the closing
   * character (which the class does not contain) matches right there, yielding that run.
   */
  lemma MatchLead(lead: String, c: String, cls: char -> bool, close: char, post: String)
    requires |c| > 0 && forall j :: 0 <= j < |c| ==> cls(c[j])
    requires !cls(close)
    ensures MatchAt(lead + c + [close] + post, 0, lead, cls, Some(close)) == Some(c)
  {
    var s := lead + c + [close] + post;
    assert s[0..][..|lead|] == lead;
    assert s[|lead|..] == c + ([close] + post);
    SpanOf(c, [close] + post, cls);
  }

  /** Positions where nothing matches are skipped. */
  lemma {:induction false} FirstFromSkip(s: String, i: nat, j: nat, lead: String, cls: char -> bool, close: Option<char>)
    requires i <= j <= |s|
    requires forall k :: i <= k < j ==> MatchAt(s, k, lead, cls, close).None?
    ensures FirstFrom(s, i, lead, cls, close) == FirstFrom(s, j, lead, cls, close)
    decreases j - i
  {
    if i < j {
      FirstFromSkip(s, i + 1, j, lead, cls, close);
    }
  }

  /**
   * The lead, a non-empty run of the class and the closing character (which the class does not
   * contain) yield that run wherever they stand, provided the text before them cannot start the
   * lead.
   */
  lemma CaptureAfter(pre: String, lead: String, c: String, cls: char -> bool, close: char, post: String)
    requires |lead| > 0 && lead[0] !in pre
    requires |c| > 0 && forall j :: 0 <= j < |c| ==> cls(c[j])
    requires !cls(close)
    ensures Capture(pre + lead + c + [close] + post, lead, cls, Some(close)) == Some(c)
  {
    var t := lead + c + [close] + post;
    var s := pre + t;
    assert s == pre + lead + c + [close] + post;
    forall k | 0 <= k < |pre| ensures MatchAt(s, k, lead, cls, Some(close)).None? {
      assert s[k..][0] == pre[k];
    }
    FirstFromSkip(s, 0, |pre|, lead, cls, Some(close));
    assert s[|pre|..] == t;
    MatchAtShift(s, |pre|, lead, cls, Some(close));
    MatchLead(lead, c, cls, close, post);
  }

  /** Nothing is captured from a text in which the lead does not occur. */
  lemma CaptureAbsent(s: String, lead: String, cls: char -> bool, close: Option<char>)
    requires !Contains(s, lead)
    ensures Capture(s, lead, cls, close) == None
  {
    forall k | 0 <= k <= |s| ensures MatchAt(s, k, lead, cls, close).None? {
      if StartsWith(s[k..], lead) {
        assert s[k..k + |lead|] == s[k..][..|lead|];
        assert OccursAt(s, lead, k);
      }
    }
  }
}
