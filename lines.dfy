// Python's two ways of cutting a payload into lines, as the text dumpers use
// them: `str.splitlines()` (any line boundary, no empty line after a final
// terminator) and `str.split("\n")` (newline only, always one more piece
// than there are newlines).

module Lines {

  /** The line boundaries `str.splitlines()` recognises. */
  predicate IsLineBreak(c: char)
  {
    c == '\n' || c == '\r' || c == '\U{0B}' || c == '\U{0C}' || c == '\U{1C}' || c == '\U{1D}'
    || c == '\U{1E}' || c == '\U{85}' || c == '\U{2028}' || c == '\U{2029}'
  }

  /** The index of the first line boundary, or |s|. */
  function FirstBreak(s: string): (i: nat)
    ensures i <= |s|
    ensures i < |s| ==> IsLineBreak(s[i])
  {
    if |s| == 0 || IsLineBreak(s[0]) then 0 else 1 + FirstBreak(s[1..])
  }

  /** No boundary comes before the first one. */
  lemma {:induction false} FirstBreakBefore(s: string)
    ensures forall k :: 0 <= k < FirstBreak(s) ==> !IsLineBreak(s[k])
    decreases |s|
  {
    if |s| > 0 && !IsLineBreak(s[0]) {
      FirstBreakBefore(s[1..]);
      forall k | 1 <= k < FirstBreak(s) ensures !IsLineBreak(s[k]) {
        assert s[k] == s[1..][k - 1];
      }
    }
  }

  /** `FirstBreak` is the index before which there is no boundary and at
      which there is one (or the end). */
  lemma {:induction false} FirstBreakIs(s: string, i: nat)
    requires i <= |s|
    requires forall k :: 0 <= k < i ==> !IsLineBreak(s[k])
    requires i < |s| ==> IsLineBreak(s[i])
    ensures FirstBreak(s) == i
  {
    if |s| > 0 && i > 0 {
      FirstBreakIs(s[1..], i - 1);
    }
  }

  /** Where the text after the boundary at `i` starts: "\r\n" is one
      boundary. */
  function BreakEnd(s: string, i: nat): (j: nat)
    requires i < |s|
    ensures i < j <= |s|
  {
    if s[i] == '\r' && i + 1 < |s| && s[i + 1] == '\n' then i + 2 else i + 1
  }

  /** `s.splitlines()`. */
  function SplitLines(s: string): (r: seq<string>)
    decreases |s|
  {
    if |s| == 0 then []
    else
      var i := FirstBreak(s);
      if i == |s| then [s] else [s[..i]] + SplitLines(s[BreakEnd(s, i)..])
  }

  /** No line `splitlines` gives holds a boundary. */
  lemma {:induction false} SplitLinesClean(s: string)
    ensures forall l, k :: l in SplitLines(s) && 0 <= k < |l| ==> !IsLineBreak(l[k])
    decreases |s|
  {
    FirstBreakBefore(s);
    if |s| > 0 && FirstBreak(s) < |s| {
      SplitLinesClean(s[BreakEnd(s, FirstBreak(s))..]);
    }
  }

  /** The lines, each followed by "\n", as `print` writes them. */
  function Joined(ls: seq<string>): (r: string)
  {
    if |ls| == 0 then "" else ls[0] + "\n" + Joined(ls[1..])
  }

  /** A text whose last line is terminated. */
  function Terminated(s: string): (r: string)
  {
    if |s| == 0 || s[|s| - 1] == '\n' then s else s + "\n"
  }

  /** For a text whose only boundaries are newlines, printing the lines of
      `splitlines` gives the text back, with a newline added after an
      unterminated last line. */
  lemma {:induction false} SplitLinesJoined(s: string)
    requires OnlyNewlines(s)
    ensures Joined(SplitLines(s)) == Terminated(s)
    decreases |s|
  {
    if |s| > 0 {
      var i := FirstBreak(s);
      if i < |s| {
        var t := s[i + 1..];
        SplitLinesAt(s, i);
        OnlyNewlinesTail(s, i);
        SplitLinesJoined(t);
        JoinedCons(s[..i], SplitLines(t));
        TerminatedAt(s, i);
      } else {
        FirstBreakBefore(s);
        assert Joined([s]) == s + "\n" + Joined([]);
      }
    }
  }

  /** The only line boundaries of `s` are newlines. */
  predicate OnlyNewlines(s: string)
  {
    forall k :: 0 <= k < |s| && IsLineBreak(s[k]) ==> s[k] == '\n'
  }

  lemma OnlyNewlinesTail(s: string, i: nat)
    requires OnlyNewlines(s) && i < |s|
    ensures OnlyNewlines(s[i + 1..])
  {
    var t := s[i + 1..];
    forall k | 0 <= k < |t| && IsLineBreak(t[k]) ensures t[k] == '\n' {
      assert t[k] == s[i + 1 + k];
    }
  }

  /** With a newline at the first boundary, the first line ends there and
      the rest starts after it. */
  lemma SplitLinesAt(s: string, i: nat)
    requires OnlyNewlines(s) && i == FirstBreak(s) && i < |s|
    ensures SplitLines(s) == [s[..i]] + SplitLines(s[i + 1..])
  {
    assert s[i] == '\n';
    assert BreakEnd(s, i) == i + 1;
  }

  lemma JoinedCons(l: string, ls: seq<string>)
    ensures Joined([l] + ls) == l + "\n" + Joined(ls)
  {
    assert ([l] + ls)[1..] == ls;
  }

  /** Terminating a text cut at a newline terminates the part after it. */
  lemma TerminatedAt(s: string, i: nat)
    requires i < |s| && s[i] == '\n'
    ensures Terminated(s) == s[..i] + "\n" + Terminated(s[i + 1..])
  {
    var t := s[i + 1..];
    assert s == s[..i] + "\n" + t;
    if |t| > 0 {
      assert t[|t| - 1] == s[|s| - 1];
    }
  }

  /** `splitlines` adds no empty line for a final newline. */
  lemma SplitLinesFinalNewline(s: string)
    requires |s| > 0 && forall k :: 0 <= k < |s| ==> !IsLineBreak(s[k])
    ensures SplitLines(s) == [s]
    ensures SplitLines(s + "\n") == [s]
  {
    var t := s + "\n";
    assert forall k :: 0 <= k < |s| ==> t[k] == s[k];
    FirstBreakIs(t, |s|);
    assert t[..|s|] == s;
    assert t[BreakEnd(t, |s|)..] == [];
  }

  /** The index of the first newline, or |s|. */
  function FirstNewline(s: string): (i: nat)
    ensures i <= |s|
    ensures i < |s| ==> s[i] == '\n'
  {
    if |s| == 0 || s[0] == '\n' then 0 else 1 + FirstNewline(s[1..])
  }

  /** No newline comes before the first one. */
  lemma {:induction false} FirstNewlineBefore(s: string)
    ensures forall k :: 0 <= k < FirstNewline(s) ==> s[k] != '\n'
    decreases |s|
  {
    if |s| > 0 && s[0] != '\n' {
      FirstNewlineBefore(s[1..]);
      forall k | 1 <= k < FirstNewline(s) ensures s[k] != '\n' {
        assert s[k] == s[1..][k - 1];
      }
    }
  }

  /** `FirstNewline` is the index before which there is no newline and at
      which there is one (or the end). */
  lemma {:induction false} FirstNewlineIs(s: string, i: nat)
    requires i <= |s|
    requires forall k :: 0 <= k < i ==> s[k] != '\n'
    requires i < |s| ==> s[i] == '\n'
    ensures FirstNewline(s) == i
  {
    if |s| > 0 && i > 0 {
      FirstNewlineIs(s[1..], i - 1);
    }
  }

  /** `s.split("\n")`. */
  function Split(s: string): (r: seq<string>)
    ensures |r| >= 1
    decreases |s|
  {
    if |s| == 0 then [""]
    else
      var i := FirstNewline(s);
      if i == |s| then [s] else [s[..i]] + Split(s[i + 1..])
  }

  /** The pieces joined back with "\n" between them: `"\n".join(ps)`. */
  function JoinNewline(ps: seq<string>): (r: string)
    requires |ps| >= 1
  {
    if |ps| == 1 then ps[0] else ps[0] + "\n" + JoinNewline(ps[1..])
  }

  /** `split("\n")` loses nothing: joining the pieces gives the text back,
      and no piece holds a newline. */
  lemma {:induction false} SplitJoin(s: string)
    ensures JoinNewline(Split(s)) == s
    ensures forall p, k :: p in Split(s) && 0 <= k < |p| ==> p[k] != '\n'
    decreases |s|
  {
    var i := FirstNewline(s);
    FirstNewlineBefore(s);
    if i < |s| {
      var t := s[i + 1..];
      SplitAt(s, i);
      SplitJoin(t);
      JoinNewlineCons(s[..i], Split(t));
      CutAt(s, i);
    } else {
      SplitWhole(s);
    }
  }

  lemma JoinNewlineCons(p: string, ps: seq<string>)
    requires |ps| >= 1
    ensures JoinNewline([p] + ps) == p + "\n" + JoinNewline(ps)
  {
    assert ([p] + ps)[1..] == ps;
  }

  /** A text is its part before index `i`, the character there, and the
      rest. */
  lemma CutAt(s: string, i: nat)
    requires i < |s|
    ensures s == s[..i] + [s[i]] + s[i + 1..]
  {
  }

  /** A final newline gives a final empty piece. */
  lemma {:induction false} SplitFinalNewline(s: string)
    ensures Split(s + "\n") == Split(s) + [""]
    decreases |s|
  {
    var t := s + "\n";
    var i := FirstNewline(s);
    NewlineAppended(s, i);
    FirstNewlineIs(t, i);
    SplitAt(t, i);
    if i == |s| {
      SplitWhole(s);
      SplitWhole("");
    } else {
      SplitAt(s, i);
      SplitFinalNewline(s[i + 1..]);
      ConcatAssoc3([s[..i]], Split(s[i + 1..]), [""]);
    }
  }

  /** Appending a newline leaves the text before it and the first newline
      where they were. */
  lemma NewlineAppended(s: string, i: nat)
    requires i == FirstNewline(s)
    ensures var t := s + "\n"; i < |t| && t[i] == '\n' && (forall k :: 0 <= k < i ==> t[k] != '\n')
    ensures var t := s + "\n"; t[..i] == s[..i]
    ensures i == |s| ==> (s + "\n")[i + 1..] == ""
    ensures i < |s| ==> (s + "\n")[i + 1..] == s[i + 1..] + "\n"
  {
    var t := s + "\n";
    FirstNewlineBefore(s);
    assert forall k :: 0 <= k < |s| ==> t[k] == s[k];
  }

  lemma SplitAt(s: string, i: nat)
    requires i == FirstNewline(s) && i < |s|
    ensures Split(s) == [s[..i]] + Split(s[i + 1..])
  {
    SplitUnfold(s);
  }

  lemma SplitUnfold(s: string)
    ensures FirstNewline(s) < |s| ==> Split(s) == [s[..FirstNewline(s)]] + Split(s[FirstNewline(s) + 1..])
  {
  }

  lemma SplitWhole(s: string)
    requires FirstNewline(s) == |s|
    ensures Split(s) == [s]
  {
  }

  lemma ConcatAssoc3(a: seq<string>, b: seq<string>, c: seq<string>)
    ensures a + (b + c) == (a + b) + c
  {
  }

  /** On a payload without line boundaries other than newlines and no final
      newline, the two splits agree. */
  lemma {:induction false} SplitAgrees(s: string)
    requires |s| > 0 && s[|s| - 1] != '\n' && OnlyNewlines(s)
    ensures Split(s) == SplitLines(s)
    decreases |s|
  {
    var i := FirstNewline(s);
    FirstNewlineBefore(s);
    FirstBreakIs(s, i);
    if i < |s| {
      var t := s[i + 1..];
      SplitAt(s, i);
      SplitLinesAt(s, i);
      OnlyNewlinesTail(s, i);
      assert |t| > 0 && t[|t| - 1] == s[|s| - 1];
      SplitAgrees(t);
    } else {
      SplitWhole(s);
    }
  }
}
