/**
 * Character classes and the few regular expressions the pages use, written out as
 * predicates over strings. Case-insensitive matching (the `i` flag) folds ASCII
 * letters only, which is what a non-Unicode JavaScript regular expression does for
 * patterns made of ASCII letters.
 */
module Text {

  /** `\d` and `[0-9]` */
  predicate IsDigit(c: char) { '0' <= c <= '9' }

  /** `[6-9]`, the first digit of an Indian mobile number */
  predicate IsMobileLead(c: char) { '6' <= c <= '9' }

  /** The characters `.` does not match: the four JavaScript line terminators. */
  predicate IsLineTerminator(c: char)
  {
    c == '\n' || c == '\r' || c == '\U{2028}' || c == '\U{2029}'
  }

  /** Recognises `\d*`. */
  function AllDigits(s: string): (r: bool)
    ensures r <==> forall i :: 0 <= i < |s| ==> IsDigit(s[i])
  {
    if s == [] then true else IsDigit(s[0]) && AllDigits(s[1..])
  }

  function AsciiLower(c: char): char
  {
    if 'A' <= c <= 'Z' then (c as int + 32) as char else c
  }

  function Lower(s: string): (r: string)
    ensures |r| == |s|
    ensures forall k :: 0 <= k < |s| ==> r[k] == AsciiLower(s[k])
  {
    seq(|s|, k requires 0 <= k < |s| => AsciiLower(s[k]))
  }

  /** The lower-case pattern `pat` matches `s` at position `i`, ignoring case. */
  predicate MatchesAt(s: string, i: int, pat: string)
  {
    0 <= i && i + |pat| <= |s| && Lower(s[i..i + |pat|]) == pat
  }

  /** Reference meaning of `/pat/i.test(s)`. */
  ghost predicate Occurs(s: string, pat: string)
  {
    exists i :: MatchesAt(s, i, pat)
  }

  /** No line terminator among `s[lo..hi]`. */
  predicate NoLineBreak(s: string, lo: int, hi: int)
  {
    forall k :: lo <= k < hi && 0 <= k < |s| ==> !IsLineTerminator(s[k])
  }

  /** Reference meaning of `/a.*b/i.test(s)`: `a`, then `b`, with no line break in between. */
  ghost predicate OccursThenOnLine(s: string, a: string, b: string)
  {
    exists i, j :: MatchesAt(s, i, a) && MatchesAt(s, j, b) && i + |a| <= j && NoLineBreak(s, i + |a|, j)
  }

  function SearchFrom(s: string, pat: string, i: nat): (r: bool)
    decreases |s| - i
    ensures r <==> exists j :: i <= j && MatchesAt(s, j, pat)
  {
    if i + |pat| > |s| then false
    else MatchesAt(s, i, pat) || SearchFrom(s, pat, i + 1)
  }

  /** `/pat/i.test(s)` for a lower-case pattern. */
  function ContainsIgnoringCase(s: string, pat: string): (r: bool)
    ensures r <==> Occurs(s, pat)
  {
    SearchFrom(s, pat, 0)
  }

  /** `b` occurs at or after `j`, on the line that `j` is on. */
  function OnLineFrom(s: string, j: nat, b: string): (r: bool)
    decreases |s| - j
    ensures r <==> exists j' :: j <= j' && MatchesAt(s, j', b) && NoLineBreak(s, j, j')
  {
    if j + |b| > |s| then false
    else if MatchesAt(s, j, b) then true
    else if j >= |s| || IsLineTerminator(s[j]) then false
    else
      var r := OnLineFrom(s, j + 1, b);
      assert forall j' :: j < j' ==> (NoLineBreak(s, j, j') <==> NoLineBreak(s, j + 1, j'));
      r
  }

  /** Some match of `a` at or after `i` is followed by `b` on the same line. */
  function SpanFrom(s: string, a: string, b: string, i: nat): (r: bool)
    decreases |s| - i
    ensures r <==> exists i' :: i <= i' && MatchesAt(s, i', a) && OnLineFrom(s, i' + |a|, b)
  {
    if i + |a| > |s| then false
    else (MatchesAt(s, i, a) && OnLineFrom(s, i + |a|, b)) || SpanFrom(s, a, b, i + 1)
  }

  /** `/a.*b/i.test(s)` for lower-case `a` and `b`. */
  function MatchesThenOnLine(s: string, a: string, b: string): (r: bool)
    ensures r <==> OccursThenOnLine(s, a, b)
  {
    var r := SpanFrom(s, a, b, 0);
    assert r ==> OccursThenOnLine(s, a, b);
    assert OccursThenOnLine(s, a, b) ==> r by {
      if OccursThenOnLine(s, a, b) {
        var i, j :| MatchesAt(s, i, a) && MatchesAt(s, j, b) && i + |a| <= j && NoLineBreak(s, i + |a|, j);
        assert OnLineFrom(s, i + |a|, b);
      }
    }
    r
  }

  /** The lower-case text both dashboards search for, with the `i` flag, to hide backend failures. */
  const InternalServerError := "internal server error"
}
