/**
 * The string operations the bot's chat and kick-reason tests are built from:
 * `toLowerCase()`, substring search (a regular-expression alternative that is
 * a plain word) and `a.*b` (a word followed later on the same line by
 * another; `.` matches anything but a line terminator).
 */
module Text {

  /** `toLowerCase()` of one character; only ASCII letters are mapped. */
  function LowerChar(c: char): char {
    if 'A' <= c <= 'Z' then (c as int - 'A' as int + 'a' as int) as char else c
  }

  /** `toLowerCase()`: no upper-case ASCII letter is left, and nothing else changes. */
  function ToLower(s: string): (t: string)
    ensures |t| == |s|
    ensures forall i :: 0 <= i < |s| ==> !('A' <= t[i] <= 'Z')
    ensures forall i :: 0 <= i < |s| && !('A' <= s[i] <= 'Z') ==> t[i] == s[i]
    ensures forall i :: 0 <= i < |s| && 'A' <= s[i] <= 'Z' ==> t[i] as int == s[i] as int + 32
  {
    seq(|s|, i requires 0 <= i < |s| => LowerChar(s[i]))
  }

  predicate StartsWith(s: string, p: string) {
    |p| <= |s| && s[..|p|] == p
  }

  /** `p` occurs in `s` at position `i`. */
  ghost predicate OccursAt(s: string, p: string, i: int) {
    0 <= i && i + |p| <= |s| && s[i..i + |p|] == p
  }

  /** Substring search: the regular expression that is the word `p` alone. */
  function Contains(s: string, p: string): (b: bool)
    ensures b <==> exists i :: OccursAt(s, p, i)
    decreases |s|
  {
    if StartsWith(s, p) then
      assert OccursAt(s, p, 0);
      true
    else if s == [] then
      assert forall i :: !OccursAt(s, p, i);
      false
    else
      assert forall j :: OccursAt(s[1..], p, j) <==> j >= 0 && OccursAt(s, p, j + 1) by {
        forall j | 0 <= j
          ensures OccursAt(s[1..], p, j) <==> OccursAt(s, p, j + 1)
        {
          ShiftAt(s, p, 1, j);
        }
      }
      assert forall i :: OccursAt(s, p, i) ==> i >= 1 && OccursAt(s[1..], p, i - 1) by {
        forall i | OccursAt(s, p, i)
          ensures i >= 1 && OccursAt(s[1..], p, i - 1)
        {
          assert i != 0;
          ShiftAt(s, p, 1, i - 1);
        }
      }
      Contains(s[1..], p)
  }

  /** `\n`, `\r`, U+2028 and U+2029: the characters `.` does not match. */
  predicate IsLineTerminator(c: char) {
    c == '\n' || c == '\r' || c == '\U{2028}' || c == '\U{2029}'
  }

  ghost predicate OnOneLine(s: string) {
    forall k :: 0 <= k < |s| ==> !IsLineTerminator(s[k])
  }

  /** `.*p` at the start of `s`: `p` occurs before the first line terminator. */
  function ContainsOnLine(s: string, p: string): (b: bool)
    ensures b <==> exists j :: OccursAt(s, p, j) && OnOneLine(s[..j])
    decreases |s|
  {
    if StartsWith(s, p) then
      assert OccursAt(s, p, 0) && OnOneLine(s[..0]);
      true
    else if s == [] || IsLineTerminator(s[0]) then
      ContainsOnLineStop(s, p);
      false
    else
      ContainsOnLineTail(s, p);
      ContainsOnLine(s[1..], p)
  }

  lemma ContainsOnLineStop(s: string, p: string)
    requires !StartsWith(s, p) && (s == [] || IsLineTerminator(s[0]))
    ensures !exists j :: OccursAt(s, p, j) && OnOneLine(s[..j])
  {
    forall j | 0 < j <= |s| ensures !OnOneLine(s[..j]) {
      assert s[..j][0] == s[0];
    }
  }

  lemma ContainsOnLineTail(s: string, p: string)
    requires |s| > 0 && !IsLineTerminator(s[0]) && !StartsWith(s, p)
    ensures (exists j :: OccursAt(s, p, j) && OnOneLine(s[..j]))
        <==> (exists j :: OccursAt(s[1..], p, j) && OnOneLine(s[1..][..j]))
  {
    if j :| OccursAt(s, p, j) && OnOneLine(s[..j]) {
      LineAtTail(s, p, j - 1);
    }
    if j :| OccursAt(s[1..], p, j) && OnOneLine(s[1..][..j]) {
      LineAtTail(s, p, j);
    }
  }

  lemma LineAtTail(s: string, p: string, j: int)
    requires |s| > 0 && !IsLineTerminator(s[0]) && !StartsWith(s, p) && -1 <= j < |s|
    ensures OccursAt(s[1..], p, j) && OnOneLine(s[1..][..j])
        <==> OccursAt(s, p, j + 1) && OnOneLine(s[..j + 1])
  {
    if j >= 0 {
      ShiftAt(s, p, 1, j);
      assert s[..j + 1] == [s[0]] + s[1..][..j];
    } else {
      assert !OccursAt(s, p, 0);
    }
  }

  /** `a.*b`: `a`, then later on the same line `b`. */
  ghost predicate Spans(s: string, a: string, b: string) {
    exists i, j :: SpanAt(s, a, b, i, j)
  }

  /** `a` at `i`, `b` at `j`, and only one line between them. */
  ghost predicate SpanAt(s: string, a: string, b: string, i: int, j: int) {
    OccursAt(s, a, i) && OccursAt(s, b, j) && i + |a| <= j && OnOneLine(s[i + |a|..j])
  }

  /** The regular expression `a.*b` finds a match in `s`. */
  function FollowedOnLine(s: string, a: string, b: string): (r: bool)
    ensures r <==> Spans(s, a, b)
    decreases |s|
  {
    SpanUnfold(s, a, b);
    (StartsWith(s, a) && ContainsOnLine(s[|a|..], b)) || (|s| > 0 && FollowedOnLine(s[1..], a, b))
  }

  lemma ShiftAt(s: string, p: string, n: nat, i: nat)
    requires n <= |s|
    ensures OccursAt(s[n..], p, i) <==> OccursAt(s, p, i + n)
  {
    if i + |p| <= |s| - n {
      assert s[n..][i..i + |p|] == s[i + n..i + n + |p|];
    }
  }

  /** A span either starts at the head of `s` or lies in its tail. */
  lemma SpanUnfold(s: string, a: string, b: string)
    ensures Spans(s, a, b)
        <==> (StartsWith(s, a) && ContainsOnLine(s[|a|..], b)) || (|s| > 0 && Spans(s[1..], a, b))
  {
    if StartsWith(s, a) && ContainsOnLine(s[|a|..], b) {
      SpanHere(s, a, b);
    }
    if i, j :| SpanAt(s, a, b, i, j) {
      if i == 0 {
        SpanAtHead(s, a, b, j);
      } else {
        SpanAtTail(s, a, b, i - 1, j - 1);
      }
    }
    if |s| > 0 && exists i, j :: SpanAt(s[1..], a, b, i, j) {
      var i, j :| SpanAt(s[1..], a, b, i, j);
      SpanAtTail(s, a, b, i, j);
    }
  }

  /** A span starting at 0 is what the head test finds. */
  lemma SpanHere(s: string, a: string, b: string)
    requires StartsWith(s, a) && ContainsOnLine(s[|a|..], b)
    ensures Spans(s, a, b)
  {
    var j :| OccursAt(s[|a|..], b, j) && OnOneLine(s[|a|..][..j]);
    ShiftAt(s, b, |a|, j);
    assert s[|a|..][..j] == s[|a|..j + |a|];
    assert OccursAt(s, a, 0);
    assert SpanAt(s, a, b, 0, j + |a|);
  }

  lemma SpanAtHead(s: string, a: string, b: string, j: int)
    requires SpanAt(s, a, b, 0, j)
    ensures StartsWith(s, a) && ContainsOnLine(s[|a|..], b)
  {
    ShiftAt(s, b, |a|, j - |a|);
    assert s[|a|..][..j - |a|] == s[|a|..j];
    assert OccursAt(s[|a|..], b, j - |a|) && OnOneLine(s[|a|..][..j - |a|]);
  }

  /** A span in the tail is a span of the whole, one position further on. */
  lemma SpanAtTail(s: string, a: string, b: string, i: nat, j: nat)
    requires |s| > 0
    ensures SpanAt(s[1..], a, b, i, j) <==> SpanAt(s, a, b, i + 1, j + 1)
  {
    ShiftAt(s, a, 1, i);
    ShiftAt(s, b, 1, j);
    if i + |a| <= j <= |s| - 1 {
      assert s[1..][i + |a|..j] == s[i + 1 + |a|..j + 1];
    }
  }

  /** Substring search is transitive: a word found inside a found word is found too. */
  lemma ContainsTransitive(s: string, p: string, q: string)
    requires Contains(s, p) && Contains(p, q)
    ensures Contains(s, q)
  {
    var i :| OccursAt(s, p, i);
    var j :| OccursAt(p, q, j);
    forall k | 0 <= k < |q| ensures s[i + j..i + j + |q|][k] == q[k] {
      assert q[k] == p[j + k];
    }
    assert OccursAt(s, q, i + j);
  }
}
